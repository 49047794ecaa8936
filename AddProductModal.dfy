/** The create-product dialog: it edits a product form and, when the form is
    valid, sends one create request; the dialog closes with `success` once
    the request succeeds. */
module AddProductModal {
  import opened Wrappers
  import opened ProductModel
  import opened ProductForm

  const CreateFailedMessage := "Failed to create product"

  class AddProductModalComponent {
    var form: FormValue
    /** Whether every control has been marked touched. */
    var allTouched: bool
    var imagesTouched: bool
    var loading: bool
    var categories: seq<Category>
    var snackbars: seq<string>
    /** Every create request body sent, oldest first. */
    var createRequests: seq<ProductUpdateDto>
    /** Every `dialogRef.close(result)`, oldest first. */
    var closes: seq<Option<string>>

    constructor ()
      ensures form == EmptyForm && !allTouched && !imagesTouched && !loading
      ensures categories == [] && snackbars == [] && createRequests == [] && closes == []
    {
      form := EmptyForm;
      allTouched := false;
      imagesTouched := false;
      loading := false;
      categories := [];
      snackbars := [];
      createRequests := [];
      closes := [];
    }

    /** Every image in the form is a trimmed `http` URL. */
    ghost predicate Valid()
      reads this
    {
      WebImages(form.images)
    }

    /** `loadCategories`' result: the list, or a failure notice. */
    method LoadCategories(result: Option<seq<Category>>)
      modifies this
      ensures result.Some? ==> categories == result.value && snackbars == old(snackbars)
      ensures result.None? ==> categories == old(categories) && snackbars == old(snackbars) + [CategoriesFailedMessage]
      ensures form == old(form) && loading == old(loading) && createRequests == old(createRequests) && closes == old(closes)
      ensures allTouched == old(allTouched) && imagesTouched == old(imagesTouched)
    {
      match result
      case Some(cs) =>
        categories := cs;
      case None =>
        snackbars := snackbars + [CategoriesFailedMessage];
    }

    /** The user types into the title, price, description and category controls. */
    method Edit(title: string, price: Option<int>, description: string, categoryId: Option<int>)
      modifies this
      ensures form == FormValue(title, price, description, categoryId, old(form.images))
      ensures loading == old(loading) && createRequests == old(createRequests) && closes == old(closes)
      ensures snackbars == old(snackbars) && categories == old(categories)
      ensures allTouched == old(allTouched) && imagesTouched == old(imagesTouched)
      ensures old(Valid()) ==> Valid()
    {
      form := FormValue(title, price, description, categoryId, form.images);
    }

    /** `addImageUrl`: returns what the input box holds afterwards (cleared on
        acceptance). */
    method AddImageUrl(input: string) returns (remaining: string)
      modifies this
      ensures form == old(form).(images := AddImage(old(form.images), input))
      ensures Accepted(input) ==> remaining == "" && imagesTouched
      ensures !Accepted(input) ==> remaining == input && imagesTouched == old(imagesTouched)
      ensures loading == old(loading) && createRequests == old(createRequests) && closes == old(closes)
      ensures snackbars == old(snackbars)
      ensures categories == old(categories) && allTouched == old(allTouched)
      ensures old(Valid()) ==> Valid()
    {
      var images := AddImage(form.images, input);
      if WebImages(form.images) {
        AddKeepsWebImages(form.images, input);
      }
      remaining := input;
      if Accepted(input) {
        remaining := "";
        imagesTouched := true;
      }
      form := form.(images := images);
    }

    method RemoveImage(i: nat)
      modifies this
      ensures form == old(form).(images := RemoveAt(old(form.images), i))
      ensures loading == old(loading) && createRequests == old(createRequests) && closes == old(closes)
      ensures snackbars == old(snackbars) && imagesTouched == old(imagesTouched)
      ensures categories == old(categories) && allTouched == old(allTouched)
      ensures old(Valid()) ==> Valid()
    {
      if WebImages(form.images) {
        RemoveKeepsWebImages(form.images, i);
      }
      form := form.(images := RemoveAt(form.images, i));
    }

    /** `onSubmit`: an invalid form is marked touched, a notice is shown and
        no request is sent; a valid one starts loading and sends its values. */
    method OnSubmit() returns (sent: bool)
      modifies this
      ensures sent <==> FormValid(form)
      ensures !sent ==> (allTouched && snackbars == old(snackbars) + [InvalidFormMessage] &&
        createRequests == old(createRequests) && loading == old(loading))
      ensures sent ==> (loading && createRequests == old(createRequests) + [RequestBody(form)] &&
        snackbars == old(snackbars) && allTouched == old(allTouched))
      ensures form == old(form) && closes == old(closes)
      ensures categories == old(categories) && imagesTouched == old(imagesTouched)
    {
      if !FormValid(form) {
        allTouched := true;
        snackbars := snackbars + [InvalidFormMessage];
        return false;
      }
      loading := true;
      createRequests := createRequests + [RequestBody(form)];
      return true;
    }

    /** The create request's outcome: success closes the dialog with
        `success`, failure shows a notice; loading ends either way. */
    method OnCreateResult(ok: bool)
      modifies this
      ensures !loading
      ensures ok ==> closes == old(closes) + [Some(SuccessResult)] && snackbars == old(snackbars)
      ensures !ok ==> closes == old(closes) && snackbars == old(snackbars) + [CreateFailedMessage]
      ensures form == old(form) && createRequests == old(createRequests)
      ensures categories == old(categories) && allTouched == old(allTouched) && imagesTouched == old(imagesTouched)
    {
      if ok {
        closes := closes + [Some(SuccessResult)];
      } else {
        snackbars := snackbars + [CreateFailedMessage];
      }
      loading := false;
    }

    method OnCancel()
      modifies this
      ensures closes == old(closes) + [None]
      ensures form == old(form) && loading == old(loading) && createRequests == old(createRequests)
      ensures snackbars == old(snackbars)
      ensures categories == old(categories) && allTouched == old(allTouched) && imagesTouched == old(imagesTouched)
    {
      closes := closes + [None];
    }
  }
}
