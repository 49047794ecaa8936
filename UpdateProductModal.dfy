/** The edit-product dialog: it loads a product into the product form and,
    when the form is valid, sends one update request for that product. */
module UpdateProductModal {
  import opened Wrappers
  import opened ProductModel
  import opened ProductForm

  const UpdateFailedMessage := "Failed to update product"

  /** An `updateProduct(id, body)` request. */
  datatype UpdateRequest = UpdateRequest(id: int, body: ProductUpdateDto)

  class UpdateProductModalComponent {
    /** The product passed in the dialog data. */
    const product: Product
    var form: FormValue
    var allTouched: bool
    var imagesTouched: bool
    var loading: bool
    var categories: seq<Category>
    var snackbars: seq<string>
    var updateRequests: seq<UpdateRequest>
    var closes: seq<Option<string>>

    constructor (product: Product)
      ensures this.product == product && form == EmptyForm && !allTouched && !imagesTouched && !loading
      ensures categories == [] && snackbars == [] && updateRequests == [] && closes == []
    {
      this.product := product;
      form := EmptyForm;
      allTouched := false;
      imagesTouched := false;
      loading := false;
      categories := [];
      snackbars := [];
      updateRequests := [];
      closes := [];
    }

    /** `ngOnInit`: the categories request's outcome, then `loadProductData`. */
    method NgOnInit(result: Option<seq<Category>>)
      modifies this
      ensures result.Some? ==> categories == result.value && snackbars == old(snackbars)
      ensures result.None? ==> categories == old(categories) && snackbars == old(snackbars) + [CategoriesFailedMessage]
      ensures form == FormOf(product)
      ensures loading == old(loading) && updateRequests == old(updateRequests) && closes == old(closes)
      ensures allTouched == old(allTouched) && imagesTouched == old(imagesTouched)
    {
      match result {
        case Some(cs) =>
          categories := cs;
        case None =>
          snackbars := snackbars + [CategoriesFailedMessage];
      }
      LoadProductData();
    }

    /** Patch the four value controls from the product, clear the image list
        and push the product's images one by one. */
    method LoadProductData()
      modifies this
      ensures form == FormOf(product)
      ensures loading == old(loading) && updateRequests == old(updateRequests) && closes == old(closes)
      ensures snackbars == old(snackbars) && categories == old(categories)
      ensures allTouched == old(allTouched) && imagesTouched == old(imagesTouched)
    {
      form := form.(title := product.title, price := Some(product.price),
        description := product.description, categoryId := Some(product.category.id));
      var images: seq<string> := [];
      var i := 0;
      while i < |product.images|
        invariant 0 <= i <= |product.images|
        invariant images == product.images[..i]
      {
        images := images + [product.images[i]];
        i := i + 1;
      }
      form := form.(images := images);
    }

    method AddImageUrl(input: string) returns (remaining: string)
      modifies this
      ensures form == old(form).(images := AddImage(old(form.images), input))
      ensures Accepted(input) ==> remaining == "" && imagesTouched
      ensures !Accepted(input) ==> remaining == input && imagesTouched == old(imagesTouched)
      ensures loading == old(loading) && updateRequests == old(updateRequests) && closes == old(closes)
      ensures snackbars == old(snackbars)
      ensures categories == old(categories) && allTouched == old(allTouched)
    {
      remaining := input;
      if Accepted(input) {
        form := form.(images := AddImage(form.images, input));
        remaining := "";
        imagesTouched := true;
      }
    }

    method RemoveImage(i: nat)
      modifies this
      ensures form == old(form).(images := RemoveAt(old(form.images), i))
      ensures loading == old(loading) && updateRequests == old(updateRequests) && closes == old(closes)
      ensures snackbars == old(snackbars) && imagesTouched == old(imagesTouched)
      ensures categories == old(categories) && allTouched == old(allTouched)
    {
      form := form.(images := RemoveAt(form.images, i));
    }

    /** `onSubmit`: an invalid form sends nothing; a valid one sends the
        product's id with the form's values, the image list unchanged. */
    method OnSubmit() returns (sent: bool)
      modifies this
      ensures sent <==> FormValid(form)
      ensures !sent ==> (allTouched && snackbars == old(snackbars) + [InvalidFormMessage] &&
        updateRequests == old(updateRequests) && loading == old(loading))
      ensures sent ==> (loading && updateRequests == old(updateRequests) + [UpdateRequest(product.id, RequestBody(form))] &&
        snackbars == old(snackbars) && allTouched == old(allTouched))
      ensures form == old(form) && closes == old(closes)
      ensures categories == old(categories) && imagesTouched == old(imagesTouched)
    {
      if !FormValid(form) {
        allTouched := true;
        snackbars := snackbars + [InvalidFormMessage];
        return false;
      }
      loading := true;
      var body := ProductUpdateDto(form.title, NumberOf(form.price), form.description, NumberOf(form.categoryId), form.images);
      updateRequests := updateRequests + [UpdateRequest(product.id, body)];
      return true;
    }

    method OnUpdateResult(ok: bool)
      modifies this
      ensures !loading
      ensures ok ==> closes == old(closes) + [Some(SuccessResult)] && snackbars == old(snackbars)
      ensures !ok ==> closes == old(closes) && snackbars == old(snackbars) + [UpdateFailedMessage]
      ensures form == old(form) && updateRequests == old(updateRequests)
      ensures categories == old(categories) && allTouched == old(allTouched) && imagesTouched == old(imagesTouched)
    {
      loading := false;
      if ok {
        closes := closes + [Some(SuccessResult)];
      } else {
        snackbars := snackbars + [UpdateFailedMessage];
      }
    }

    method OnCancel()
      modifies this
      ensures closes == old(closes) + [None]
      ensures form == old(form) && loading == old(loading) && updateRequests == old(updateRequests)
      ensures snackbars == old(snackbars)
      ensures categories == old(categories) && allTouched == old(allTouched) && imagesTouched == old(imagesTouched)
    {
      closes := closes + [None];
    }
  }
}
