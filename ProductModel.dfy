/** The product and category records, the store's filter and pagination
    records, and the store's state record with its initial value. */
module ProductModel {
  import opened Wrappers
  import opened Seqs

  /** A category as the API returns it (timestamps left out). */
  datatype Category = Category(id: int, name: string, slug: string, image: string)

  /** A product as the API returns it (timestamps left out; price in whole units). */
  datatype Product = Product(
    id: int,
    title: string,
    slug: string,
    price: int,
    description: string,
    images: seq<string>,
    category: Category)

  /** Query filters; every field is optional. */
  datatype ProductFilters = ProductFilters(
    categoryId: Option<int>,
    limit: Option<int>,
    offset: Option<int>,
    search: Option<string>)

  datatype PaginationInfo = PaginationInfo(limit: int, offset: int, total: int, hasMore: bool)

  /** The whole record the products store holds. */
  datatype ProductState = ProductState(
    products: seq<Product>,
    filteredProducts: seq<Product>,
    currentProduct: Option<Product>,
    categories: seq<Category>,
    selectedCategory: Option<Category>,
    loading: bool,
    loadingProducts: bool,
    loadingCategories: bool,
    filters: ProductFilters,
    pagination: PaginationInfo,
    error: Option<string>)

  /** The body of a product create or update request. */
  datatype ProductUpdateDto = ProductUpdateDto(
    title: string,
    price: int,
    description: string,
    categoryId: int,
    images: seq<string>)

  /** The body of a category create request. */
  datatype CategoryUpdateDto = CategoryUpdateDto(name: string, image: string)

  /** The filters the store starts with: limit 20, offset 0. */
  const InitialFilters := ProductFilters(None, Some(20), Some(0), None)

  /** The state the store starts with, and returns to on reset. */
  const InitialProductState := ProductState(
    products := [],
    filteredProducts := [],
    currentProduct := None,
    categories := [],
    selectedCategory := None,
    loading := false,
    loadingProducts := false,
    loadingCategories := false,
    filters := InitialFilters,
    pagination := PaginationInfo(18, 0, 0, false),
    error := None)

  /** Every entry whose id is `u.id` replaced by `u` (the store's and the
      pages' `map(p => p.id === u.id ? u : p)`). */
  function ReplaceById(ps: seq<Product>, u: Product): (r: seq<Product>)
    ensures |r| == |ps|
    ensures forall i :: 0 <= i < |ps| && ps[i].id == u.id ==> r[i] == u
    ensures forall i :: 0 <= i < |ps| && ps[i].id != u.id ==> r[i] == ps[i]
    ensures (forall i :: 0 <= i < |ps| ==> ps[i].id != u.id) ==> r == ps
  {
    MapSeq((p: Product) => if p.id == u.id then u else p, ps)
  }

  /** The entries whose id is not `id`, in order (`filter(p => p.id !== id)`). */
  function RemoveById(ps: seq<Product>, id: int): (r: seq<Product>)
    ensures forall i :: 0 <= i < |r| ==> r[i].id != id && r[i] in ps
    ensures forall i :: 0 <= i < |ps| && ps[i].id != id ==> ps[i] in r
    ensures forall x :: multiset(r)[x] == if x.id == id then 0 else multiset(ps)[x]
  {
    var r := Filter((p: Product) => p.id != id, ps);
    forall x
      ensures multiset(r)[x] == if x.id == id then 0 else multiset(ps)[x]
    {
      FilterCounts((p: Product) => p.id != id, ps, x);
    }
    r
  }

  /** Removal keeps the order of what remains, and removes nothing when the id is absent. */
  lemma RemoveByIdKeepsOrder(ps: seq<Product>, id: int)
    ensures IsSubsequence(RemoveById(ps, id), ps)
    ensures (forall i :: 0 <= i < |ps| ==> ps[i].id != id) ==> RemoveById(ps, id) == ps
  {
    FilterIsSubsequence((p: Product) => p.id != id, ps);
    if forall i :: 0 <= i < |ps| ==> ps[i].id != id {
      FilterKeepsAll((p: Product) => p.id != id, ps);
    }
  }
}
