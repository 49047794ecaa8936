/** The products store: one state record, replaced as a whole by every action
    through a merge-and-compare step that publishes only real changes. */
module Store {
  import opened Wrappers
  import opened Seqs
  import opened ProductModel

  /** A `Partial<ProductState>`: `None` leaves the field as it is. */
  datatype StatePatch = StatePatch(
    products: Option<seq<Product>>,
    filteredProducts: Option<seq<Product>>,
    currentProduct: Option<Option<Product>>,
    categories: Option<seq<Category>>,
    selectedCategory: Option<Option<Category>>,
    loading: Option<bool>,
    loadingProducts: Option<bool>,
    loadingCategories: Option<bool>,
    filters: Option<ProductFilters>,
    pagination: Option<PaginationInfo>,
    error: Option<Option<string>>)

  const NoChange := StatePatch(None, None, None, None, None, None, None, None, None, None, None)

  /** `given` overrides `was` exactly when it is present. */
  ghost predicate Overridden<T>(given: Option<T>, was: T, now: T) {
    now == if given.Some? then given.value else was
  }

  /** `{...s, ...p}`. */
  function Merge(s: ProductState, p: StatePatch): (r: ProductState)
    ensures Overridden(p.products, s.products, r.products)
    ensures Overridden(p.filteredProducts, s.filteredProducts, r.filteredProducts)
    ensures Overridden(p.currentProduct, s.currentProduct, r.currentProduct)
    ensures Overridden(p.categories, s.categories, r.categories)
    ensures Overridden(p.selectedCategory, s.selectedCategory, r.selectedCategory)
    ensures Overridden(p.loading, s.loading, r.loading)
    ensures Overridden(p.loadingProducts, s.loadingProducts, r.loadingProducts)
    ensures Overridden(p.loadingCategories, s.loadingCategories, r.loadingCategories)
    ensures Overridden(p.filters, s.filters, r.filters)
    ensures Overridden(p.pagination, s.pagination, r.pagination)
    ensures Overridden(p.error, s.error, r.error)
  {
    ProductState(
      p.products.GetOr(s.products),
      p.filteredProducts.GetOr(s.filteredProducts),
      p.currentProduct.GetOr(s.currentProduct),
      p.categories.GetOr(s.categories),
      p.selectedCategory.GetOr(s.selectedCategory),
      p.loading.GetOr(s.loading),
      p.loadingProducts.GetOr(s.loadingProducts),
      p.loadingCategories.GetOr(s.loadingCategories),
      p.filters.GetOr(s.filters),
      p.pagination.GetOr(s.pagination),
      p.error.GetOr(s.error))
  }

  /** An empty patch changes nothing, and applying the same patch twice is applying it once. */
  lemma MergeLaws(s: ProductState, p: StatePatch)
    ensures Merge(s, NoChange) == s
    ensures Merge(Merge(s, p), p) == Merge(s, p)
  {
  }

  /** The log of published states after an update from `before` to `after`:
      a new entry only when the record differs. */
  function Publish(log: seq<ProductState>, before: ProductState, after: ProductState): (r: seq<ProductState>)
    ensures after == before ==> r == log
    ensures after != before ==> r == log + [after]
  {
    if after == before then log else log + [after]
  }

  /** `Partial<ProductFilters>`: `None` leaves the field as it is; since every
      filter is itself optional, `Some(None)` is a key given as `undefined`,
      which clears the field. */
  datatype FiltersPatch = FiltersPatch(
    categoryId: Option<Option<int>>,
    limit: Option<Option<int>>,
    offset: Option<Option<int>>,
    search: Option<Option<string>>)

  const NoFilterChange := FiltersPatch(None, None, None, None)

  /** `{...f, ...p}` on filters. */
  function MergeFilters(f: ProductFilters, p: FiltersPatch): (r: ProductFilters)
    ensures Overridden(p.categoryId, f.categoryId, r.categoryId)
    ensures Overridden(p.limit, f.limit, r.limit)
    ensures Overridden(p.offset, f.offset, r.offset)
    ensures Overridden(p.search, f.search, r.search)
  {
    ProductFilters(p.categoryId.GetOr(f.categoryId), p.limit.GetOr(f.limit), p.offset.GetOr(f.offset), p.search.GetOr(f.search))
  }

  /** `{...p, ...q}`: the keys of `q` win over those of `p`. */
  function ThenFilters(p: FiltersPatch, q: FiltersPatch): FiltersPatch {
    FiltersPatch(
      if q.categoryId.Some? then q.categoryId else p.categoryId,
      if q.limit.Some? then q.limit else p.limit,
      if q.offset.Some? then q.offset else p.offset,
      if q.search.Some? then q.search else p.search)
  }

  /** An empty patch keeps the filters, a repeated patch changes nothing more,
      and two updates in a row are one update with the combined patch. */
  lemma MergeFiltersLaws(f: ProductFilters, p: FiltersPatch, q: FiltersPatch)
    ensures MergeFilters(f, NoFilterChange) == f
    ensures MergeFilters(MergeFilters(f, p), p) == MergeFilters(f, p)
    ensures MergeFilters(MergeFilters(f, p), q) == MergeFilters(f, ThenFilters(p, q))
  {
  }

  /** `Partial<PaginationInfo>`. */
  datatype PaginationPatch = PaginationPatch(
    limit: Option<int>,
    offset: Option<int>,
    total: Option<int>,
    hasMore: Option<bool>)

  const NoPaginationChange := PaginationPatch(None, None, None, None)

  /** `{...g, ...p}` on pagination. */
  function MergePagination(g: PaginationInfo, p: PaginationPatch): (r: PaginationInfo)
    ensures Overridden(p.limit, g.limit, r.limit) && Overridden(p.offset, g.offset, r.offset)
    ensures Overridden(p.total, g.total, r.total) && Overridden(p.hasMore, g.hasMore, r.hasMore)
  {
    PaginationInfo(p.limit.GetOr(g.limit), p.offset.GetOr(g.offset), p.total.GetOr(g.total), p.hasMore.GetOr(g.hasMore))
  }

  /** `{...p, ...q}` on pagination patches. */
  function ThenPagination(p: PaginationPatch, q: PaginationPatch): PaginationPatch {
    PaginationPatch(
      if q.limit.Some? then q.limit else p.limit,
      if q.offset.Some? then q.offset else p.offset,
      if q.total.Some? then q.total else p.total,
      if q.hasMore.Some? then q.hasMore else p.hasMore)
  }

  /** The same three laws for pagination. */
  lemma MergePaginationLaws(g: PaginationInfo, p: PaginationPatch, q: PaginationPatch)
    ensures MergePagination(g, NoPaginationChange) == g
    ensures MergePagination(MergePagination(g, p), p) == MergePagination(g, p)
    ensures MergePagination(MergePagination(g, p), q) == MergePagination(g, ThenPagination(p, q))
  {
  }

  /** The filters `clearFilters` installs: limit 10, offset 0. */
  const ClearedFilters := ProductFilters(None, Some(10), Some(0), None)

  /** The label shown when no category is selected. */
  const AllProductsLabel := "Все товары"

  /** The combined view record of `productsView$`. */
  datatype ProductsView = ProductsView(
    products: seq<Product>,
    loading: bool,
    category: string,
    error: Option<string>,
    isEmpty: bool)

  /** The view of a state: the displayed list, its loading flag and error, the
      category label (`category?.name || 'Все товары'`, so an empty name also
      shows the default), and whether the list is empty once loading is over. */
  function View(s: ProductState): (v: ProductsView)
    ensures v.products == s.filteredProducts && v.loading == s.loadingProducts && v.error == s.error
    ensures v.isEmpty <==> !s.loadingProducts && s.filteredProducts == []
    ensures s.selectedCategory.None? ==> v.category == AllProductsLabel
    ensures s.selectedCategory.Some? && s.selectedCategory.value.name != "" ==> v.category == s.selectedCategory.value.name
    ensures s.selectedCategory.Some? && s.selectedCategory.value.name == "" ==> v.category == AllProductsLabel
  {
    ProductsView(
      s.filteredProducts,
      s.loadingProducts,
      if s.selectedCategory.Some? && s.selectedCategory.value.name != "" then s.selectedCategory.value.name
      else AllProductsLabel,
      s.error,
      !s.loadingProducts && |s.filteredProducts| == 0)
  }

  /** What a fresh store holds: nothing loaded, nothing selected, no error,
      filters {limit 20, offset 0} (not the {limit 10} that clearing installs),
      pagination {18, 0, 0, no more}; its view is the empty "all products" view. */
  lemma InitialStateFacts()
    ensures InitialProductState.products == [] && InitialProductState.filteredProducts == []
    ensures InitialProductState.categories == []
    ensures InitialProductState.currentProduct.None? && InitialProductState.selectedCategory.None?
    ensures InitialProductState.error.None?
    ensures !InitialProductState.loading && !InitialProductState.loadingProducts && !InitialProductState.loadingCategories
    ensures InitialProductState.filters.limit == Some(20) && InitialProductState.filters.offset == Some(0)
    ensures InitialProductState.filters != ClearedFilters
    ensures InitialProductState.pagination == PaginationInfo(18, 0, 0, false)
    ensures View(InitialProductState).isEmpty && View(InitialProductState).category == AllProductsLabel
  {
  }

  class ProductsStore {
    /** The current record (`state.value`). */
    var state: ProductState
    /** Every record the subject has emitted, oldest first. */
    var published: seq<ProductState>

    constructor ()
      ensures state == InitialProductState && published == [InitialProductState]
    {
      state := InitialProductState;
      published := [InitialProductState];
    }

    /** Merge `p` over the current record; publish only if the result differs. */
    method UpdateState(p: StatePatch)
      modifies this
      ensures state == Merge(old(state), p)
      ensures published == Publish(old(published), old(state), state)
    {
      var newState := Merge(state, p);
      if newState != state {
        state := newState;
        published := published + [newState];
      }
    }

    /** Both lists become exactly `ps`. */
    method SetProducts(ps: seq<Product>)
      modifies this
      ensures state == old(state).(products := ps, filteredProducts := ps)
      ensures published == Publish(old(published), old(state), state)
    {
      UpdateState(NoChange.(products := Some(ps), filteredProducts := Some(ps)));
    }

    /** Append a page; the displayed list follows the full list. */
    method AddProducts(page: seq<Product>)
      modifies this
      ensures state.products == old(state.products) + page
      ensures |state.products| == |old(state.products)| + |page|
      ensures state == old(state).(products := old(state.products) + page, filteredProducts := old(state.products) + page)
      ensures published == Publish(old(published), old(state), state)
    {
      var newProducts := state.products + page;
      UpdateState(NoChange.(products := Some(newProducts), filteredProducts := Some(newProducts)));
    }

    method SetFilteredProducts(ps: seq<Product>)
      modifies this
      ensures state == old(state).(filteredProducts := ps)
      ensures published == Publish(old(published), old(state), state)
    {
      UpdateState(NoChange.(filteredProducts := Some(ps)));
    }

    method ClearProducts()
      modifies this
      ensures state == old(state).(products := [], filteredProducts := [])
      ensures published == Publish(old(published), old(state), state)
    {
      UpdateState(NoChange.(products := Some([]), filteredProducts := Some([])));
    }

    method AddProduct(p: Product)
      modifies this
      ensures state == old(state).(products := old(state.products) + [p], filteredProducts := old(state.products) + [p])
      ensures published == Publish(old(published), old(state), state)
    {
      var ps := state.products + [p];
      UpdateState(NoChange.(products := Some(ps), filteredProducts := Some(ps)));
    }

    /** Replace the entries with `u`'s id; the current product follows only if its id matches. */
    method UpdateProduct(u: Product)
      modifies this
      ensures state == old(state).(
        products := ReplaceById(old(state.products), u),
        filteredProducts := ReplaceById(old(state.products), u),
        currentProduct := if old(state.currentProduct).Some? && old(state.currentProduct).value.id == u.id
                          then Some(u) else old(state.currentProduct))
      ensures published == Publish(old(published), old(state), state)
    {
      var ps := ReplaceById(state.products, u);
      var current := if state.currentProduct.Some? && state.currentProduct.value.id == u.id
                     then Some(u) else state.currentProduct;
      UpdateState(NoChange.(products := Some(ps), filteredProducts := Some(ps), currentProduct := Some(current)));
    }

    /** Remove the entries with `id`; the current product is cleared only if it had that id. */
    method DeleteProduct(id: int)
      modifies this
      ensures state == old(state).(
        products := RemoveById(old(state.products), id),
        filteredProducts := RemoveById(old(state.products), id),
        currentProduct := if old(state.currentProduct).Some? && old(state.currentProduct).value.id == id
                          then None else old(state.currentProduct))
      ensures published == Publish(old(published), old(state), state)
    {
      var ps := RemoveById(state.products, id);
      var current := if state.currentProduct.Some? && state.currentProduct.value.id == id
                     then None else state.currentProduct;
      UpdateState(NoChange.(products := Some(ps), filteredProducts := Some(ps), currentProduct := Some(current)));
    }

    method SetCurrentProduct(p: Option<Product>)
      modifies this
      ensures state == old(state).(currentProduct := p)
      ensures published == Publish(old(published), old(state), state)
    {
      UpdateState(NoChange.(currentProduct := Some(p)));
    }

    method SetCategories(cs: seq<Category>)
      modifies this
      ensures state == old(state).(categories := cs)
      ensures published == Publish(old(published), old(state), state)
    {
      UpdateState(NoChange.(categories := Some(cs)));
    }

    method SelectCategory(c: Option<Category>)
      modifies this
      ensures state == old(state).(selectedCategory := c)
      ensures published == Publish(old(published), old(state), state)
    {
      UpdateState(NoChange.(selectedCategory := Some(c)));
    }

    method UpdateFilters(fp: FiltersPatch)
      modifies this
      ensures state == old(state).(filters := MergeFilters(old(state.filters), fp))
      ensures published == Publish(old(published), old(state), state)
    {
      UpdateState(NoChange.(filters := Some(MergeFilters(state.filters, fp))));
    }

    /** Filters back to {limit 10, offset 0} and no selected category; products and categories untouched. */
    method ClearFilters()
      modifies this
      ensures state == old(state).(filters := ClearedFilters, selectedCategory := None)
      ensures state.products == old(state.products) && state.categories == old(state.categories)
      ensures published == Publish(old(published), old(state), state)
    {
      UpdateState(NoChange.(filters := Some(ClearedFilters), selectedCategory := Some(None)));
    }

    method SetLoading(b: bool)
      modifies this
      ensures state == old(state).(loading := b)
      ensures published == Publish(old(published), old(state), state)
    {
      UpdateState(NoChange.(loading := Some(b)));
    }

    method SetLoadingProducts(b: bool)
      modifies this
      ensures state == old(state).(loadingProducts := b)
      ensures published == Publish(old(published), old(state), state)
    {
      UpdateState(NoChange.(loadingProducts := Some(b)));
    }

    method SetLoadingCategories(b: bool)
      modifies this
      ensures state == old(state).(loadingCategories := b)
      ensures published == Publish(old(published), old(state), state)
    {
      UpdateState(NoChange.(loadingCategories := Some(b)));
    }

    /** Setting the error it already has is a no-op; any other value is set and published. */
    method SetError(e: Option<string>)
      modifies this
      ensures old(state.error) == e ==> state == old(state) && published == old(published)
      ensures old(state.error) != e ==> state == old(state).(error := e) && published == old(published) + [state]
    {
      if state.error == e {
        return;
      }
      UpdateState(NoChange.(error := Some(e)));
    }

    method UpdatePagination(pp: PaginationPatch)
      modifies this
      ensures state == old(state).(pagination := MergePagination(old(state.pagination), pp))
      ensures published == Publish(old(published), old(state), state)
    {
      UpdateState(NoChange.(pagination := Some(MergePagination(state.pagination, pp))));
    }

    /** Back to the initial record, published even when nothing changed. */
    method ResetState()
      modifies this
      ensures state == InitialProductState
      ensures published == old(published) + [InitialProductState]
    {
      state := InitialProductState;
      published := published + [InitialProductState];
    }

    /** The current view (`productsView$` evaluated on the current record). */
    function ProductsView(): (v: ProductsView)
      reads this
      ensures v == View(state)
    {
      View(state)
    }
  }
}
