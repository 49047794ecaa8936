/** The dashboard's product table: an initial page, further pages appended on
    demand until a short page signals the end, and deletion. Each request is
    split into the call that issues it and the handler of its result. */
module DashboardProducts {
  import opened Wrappers
  import opened Seqs
  import opened ProductModel

  /** Page size. */
  const ItemsPerPage := 20

  const LoadFailedMessage := "Failed to load products"
  const LoadMoreFailedMessage := "Failed to load more products"
  const CreatedMessage := "Product created successfully!"
  const UpdatedMessage := "Product updated successfully!"
  const DeletedMessage := "Product deleted successfully!"
  const DeleteFailedMessage := "Failed to delete product"

  /** The dialog whose closing is handled. */
  datatype Dialog = AddDialog | UpdateDialog

  /** A `getProducts(limit, offset)` request. */
  datatype PageRequest = PageRequest(limit: int, offset: int)

  /** The offset of the page after `page` full pages. */
  function PageOffset(page: nat): (r: nat)
    ensures r == page * ItemsPerPage
    ensures page > 0 ==> r == PageOffset(page - 1) + ItemsPerPage
  {
    page * ItemsPerPage
  }

  class DashboardProductsComponent {
    var products: seq<Product>
    var currentPage: nat
    var hasMore: bool
    var loadingMore: bool
    var initialLoading: bool
    /** Every page request issued, oldest first. */
    var requests: seq<PageRequest>
    /** Every snackbar message shown, oldest first. */
    var snackbars: seq<string>

    constructor ()
      ensures products == [] && currentPage == 0 && hasMore && !loadingMore && !initialLoading && requests == []
      ensures snackbars == []
    {
      snackbars := [];
      products := [];
      currentPage := 0;
      hasMore := true;
      loadingMore := false;
      initialLoading := false;
      requests := [];
    }

    /** While more pages are expected, the list holds exactly the full pages
        loaded so far, so the next request starts where the list ends. */
    ghost predicate Contiguous()
      reads this
    {
      hasMore ==> |products| == PageOffset(currentPage)
    }

    /** `loadInitialProducts`, up to the request: page 0 of 20. */
    method StartInitialLoad()
      modifies this
      ensures initialLoading && currentPage == 0
      ensures requests == old(requests) + [PageRequest(ItemsPerPage, 0)]
      ensures products == old(products) && hasMore == old(hasMore) && loadingMore == old(loadingMore)
      ensures snackbars == old(snackbars)
    {
      initialLoading := true;
      currentPage := 0;
      requests := requests + [PageRequest(ItemsPerPage, 0)];
    }

    /** Its result: a page replaces the list, `hasMore` says whether it was full
        and the next page is 1; a failure empties the list and shows a notice. */
    method CompleteInitialLoad(result: Option<seq<Product>>)
      modifies this
      ensures !initialLoading
      ensures result.Some? ==> products == result.value && hasMore == (|result.value| == ItemsPerPage) && currentPage == 1
      ensures result.None? ==> products == [] && hasMore == old(hasMore) && currentPage == old(currentPage)
      ensures snackbars == if result.Some? then old(snackbars) else old(snackbars) + [LoadFailedMessage]
      ensures loadingMore == old(loadingMore) && requests == old(requests)
      ensures result.Some? || old(currentPage) == 0 ==> Contiguous()
    {
      match result {
        case Some(page) =>
          products := page;
          hasMore := |page| == ItemsPerPage;
          currentPage := 1;
        case None =>
          snackbars := snackbars + [LoadFailedMessage];
          products := [];
      }
      initialLoading := false;
    }

    /** `loadMoreProducts`, up to the request. While a page is loading or
        after a short page nothing happens at all; otherwise the next page is
        requested at `currentPage * 20`. */
    method StartLoadMore() returns (started: bool)
      modifies this
      ensures started <==> !old(loadingMore) && old(hasMore)
      ensures !started ==> (products == old(products) && currentPage == old(currentPage) &&
        hasMore == old(hasMore) && loadingMore == old(loadingMore) && requests == old(requests))
      ensures started ==> loadingMore && requests == old(requests) + [PageRequest(ItemsPerPage, PageOffset(currentPage))]
      ensures started ==> products == old(products) && currentPage == old(currentPage) && hasMore == old(hasMore)
      ensures initialLoading == old(initialLoading) && snackbars == old(snackbars)
      ensures started && old(Contiguous()) ==> requests[|requests| - 1].offset == |products|
    {
      if loadingMore || !hasMore {
        return false;
      }
      loadingMore := true;
      var offset := currentPage * ItemsPerPage;
      requests := requests + [PageRequest(ItemsPerPage, offset)];
      return true;
    }

    /** Its result: a page is appended, `hasMore` says whether it was full and
        the page number advances only past a non-empty page; a failure only
        shows a notice. Loading ends either way. */
    method CompleteLoadMore(result: Option<seq<Product>>)
      modifies this
      ensures !loadingMore
      ensures result.Some? ==> products == old(products) + result.value
      ensures result.Some? ==> hasMore == (|result.value| == ItemsPerPage)
      ensures result.Some? ==> currentPage == if |result.value| > 0 then old(currentPage) + 1 else old(currentPage)
      ensures result.None? ==> products == old(products) && currentPage == old(currentPage) && hasMore == old(hasMore)
      ensures snackbars == if result.Some? then old(snackbars) else old(snackbars) + [LoadMoreFailedMessage]
      ensures initialLoading == old(initialLoading) && requests == old(requests)
      ensures old(hasMore) && old(Contiguous()) ==> Contiguous()
    {
      match result {
        case Some(page) =>
          products := products + page;
          hasMore := |page| == ItemsPerPage;
          if |page| > 0 {
            currentPage := currentPage + 1;
          }
        case None =>
          snackbars := snackbars + [LoadMoreFailedMessage];
      }
      loadingMore := false;
    }

    /** `deleteProduct`: nothing without confirmation; after a confirmed,
        successful delete every product with the id is gone and the rest keep
        their order; a failed delete changes nothing but the notice. */
    method DeleteProduct(id: int, confirmed: bool, deleted: bool)
      modifies this
      ensures confirmed && deleted ==> products == RemoveById(old(products), id)
      ensures confirmed && deleted ==> IsSubsequence(products, old(products))
      ensures !(confirmed && deleted) ==> products == old(products)
      ensures snackbars == if !confirmed then old(snackbars)
        else if deleted then old(snackbars) + [DeletedMessage] else old(snackbars) + [DeleteFailedMessage]
      ensures currentPage == old(currentPage) && hasMore == old(hasMore) && loadingMore == old(loadingMore)
      ensures initialLoading == old(initialLoading) && requests == old(requests)
    {
      if confirmed && deleted {
        RemoveByIdKeepsOrder(products, id);
        products := RemoveById(products, id);
        snackbars := snackbars + [DeletedMessage];
      } else if confirmed {
        snackbars := snackbars + [DeleteFailedMessage];
      }
    }

    /** A create or update dialog closing with `success` reloads from page 0
        and says which of the two succeeded; any other closing does nothing. */
    method OnDialogClosed(dialog: Dialog, result: string)
      modifies this
      ensures result == "success" ==> (initialLoading && currentPage == 0 &&
        requests == old(requests) + [PageRequest(ItemsPerPage, 0)] &&
        snackbars == old(snackbars) + [if dialog.AddDialog? then CreatedMessage else UpdatedMessage])
      ensures result != "success" ==> (initialLoading == old(initialLoading) && currentPage == old(currentPage) &&
        requests == old(requests) && snackbars == old(snackbars))
      ensures products == old(products) && hasMore == old(hasMore) && loadingMore == old(loadingMore)
    {
      if result == "success" {
        StartInitialLoad();
        snackbars := snackbars + [if dialog.AddDialog? then CreatedMessage else UpdatedMessage];
      }
    }
  }
}
