/** The product form shared by the create and update dialogs: its controls,
    the Angular validators on them, the image-URL list editing and the request
    body built from the form. */
module ProductForm {
  import opened Wrappers
  import opened Text
  import opened ProductModel

  const MinTitleLength := 2
  const MinPrice := 1
  const MinDescriptionLength := 10
  const MinCategoryId := 1
  const MaxCategoryId := 1000
  const InvalidFormMessage := "Please fill all required fields correctly"
  const CategoriesFailedMessage := "Failed to load categories"
  const SuccessResult := "success"

  /** The form's controls; a `null` number control is `None`. */
  datatype FormValue = FormValue(
    title: string,
    price: Option<int>,
    description: string,
    categoryId: Option<int>,
    images: seq<string>)

  /** The controls as the form group is built. */
  const EmptyForm := FormValue("", None, "", None, [])

  /** `Validators.required` on a text control. */
  predicate Required(s: string) {
    s != ""
  }

  /** `Validators.minLength(n)`, which lets an empty value through. */
  predicate MinLength(s: string, n: nat) {
    s == "" || |s| >= n
  }

  /** `Validators.min(n)`, which lets `null` through. */
  predicate MinValue(v: Option<int>, n: int) {
    v.None? || v.value >= n
  }

  /** `Number(value)` of a number control: `null` converts to 0. */
  function NumberOf(v: Option<int>): (n: int)
    ensures v.Some? ==> n == v.value
    ensures v.None? ==> n == 0
  {
    match v
    case Some(x) => x
    case None => 0
  }

  /** `categoryIdValidator`: the numeric value must lie in 1..1000, so `null`
      (which converts to 0) is refused. */
  function CategoryIdValidator(v: Option<int>): (ok: bool)
    ensures ok <==> v.Some? && MinCategoryId <= v.value <= MaxCategoryId
  {
    var n := NumberOf(v);
    !(n < MinCategoryId || n > MaxCategoryId)
  }

  /** The form is valid when every control's validators pass; in plain
      terms: a title of at least 2 characters, a price of at least 1, a
      description of at least 10 characters, a category id in 1..1000 and at
      least one image. */
  function FormValid(f: FormValue): (ok: bool)
    ensures ok <==> (|f.title| >= MinTitleLength && f.price.Some? && f.price.value >= MinPrice &&
      |f.description| >= MinDescriptionLength && f.categoryId.Some? &&
      MinCategoryId <= f.categoryId.value <= MaxCategoryId && |f.images| >= 1)
  {
    Required(f.title) && MinLength(f.title, MinTitleLength) &&
    f.price.Some? && MinValue(f.price, MinPrice) &&
    Required(f.description) && MinLength(f.description, MinDescriptionLength) &&
    f.categoryId.Some? && CategoryIdValidator(f.categoryId) &&
    |f.images| != 0 && |f.images| >= 1
  }

  /** The input box's text is added when, trimmed, it is non-empty and starts with `http`. */
  predicate Accepted(input: string) {
    var url := Trim(input);
    url != "" && StartsWith(url, "http")
  }

  /** `addImageUrl`'s effect on the list: the trimmed URL at the end when
      accepted, the list unchanged otherwise. */
  function AddImage(images: seq<string>, input: string): (r: seq<string>)
    ensures Accepted(input) ==> r == images + [Trim(input)]
    ensures !Accepted(input) ==> r == images
    ensures |r| == |images| + (if Accepted(input) then 1 else 0)
  {
    var url := Trim(input);
    if url != "" && StartsWith(url, "http") then images + [url] else images
  }

  /** `removeImage(i)`: entry `i` is gone, the entries before it keep their
      place and the ones after it move up by one; an index past the end
      changes nothing. */
  function RemoveAt(images: seq<string>, i: nat): (r: seq<string>)
    ensures i < |images| ==> |r| == |images| - 1
    ensures i < |images| ==> forall j :: 0 <= j < i ==> r[j] == images[j]
    ensures i < |images| ==> forall j :: i <= j < |r| ==> r[j] == images[j + 1]
    ensures i >= |images| ==> r == images
  {
    if i < |images| then images[..i] + images[i + 1..] else images
  }

  /** Removing the entry just added gives back the list it was added to. */
  lemma RemoveUndoesAdd(images: seq<string>, input: string)
    requires Accepted(input)
    ensures RemoveAt(AddImage(images, input), |images|) == images
  {
    assert (images + [Trim(input)])[..|images|] == images;
  }

  /** Every image is a trimmed `http` URL. */
  ghost predicate WebImages(images: seq<string>) {
    forall k :: 0 <= k < |images| ==> images[k] != "" && IsTrimmed(images[k]) && StartsWith(images[k], "http")
  }

  /** Adding keeps every image a trimmed `http` URL. */
  lemma AddKeepsWebImages(images: seq<string>, input: string)
    requires WebImages(images)
    ensures WebImages(AddImage(images, input))
  {
    if Accepted(input) {
      var url := Trim(input);
      var r := images + [url];
      assert AddImage(images, input) == r;
      forall k | 0 <= k < |r|
        ensures r[k] != "" && IsTrimmed(r[k]) && StartsWith(r[k], "http")
      {
        if k < |images| {
          assert r[k] == images[k];
        } else {
          assert r[k] == url;
        }
      }
    }
  }

  /** Removing keeps every image a trimmed `http` URL, so a list built only
      by these two edits holds nothing else. */
  lemma RemoveKeepsWebImages(images: seq<string>, i: nat)
    requires WebImages(images)
    ensures WebImages(RemoveAt(images, i))
  {
    if i < |images| {
      var r := RemoveAt(images, i);
      forall k | 0 <= k < |r|
        ensures r[k] != "" && IsTrimmed(r[k]) && StartsWith(r[k], "http")
      {
        if k < i {
          assert r[k] == images[k];
        } else {
          assert r[k] == images[k + 1];
        }
      }
    }
  }

  /** The request body: the form's values with the number controls converted (`+value`). */
  function RequestBody(f: FormValue): (d: ProductUpdateDto)
    ensures d.title == f.title && d.description == f.description && d.images == f.images
    ensures d.price == NumberOf(f.price) && d.categoryId == NumberOf(f.categoryId)
    ensures FormValid(f) ==> (d.price >= MinPrice && MinCategoryId <= d.categoryId <= MaxCategoryId &&
      |d.title| >= MinTitleLength && |d.description| >= MinDescriptionLength && |d.images| >= 1)
  {
    ProductUpdateDto(f.title, NumberOf(f.price), f.description, NumberOf(f.categoryId), f.images)
  }

  /** `loadProductData`'s result: the product's title, price, description,
      category id and its images in order. */
  function FormOf(p: Product): (f: FormValue)
    ensures f.title == p.title && f.price == Some(p.price) && f.description == p.description
    ensures f.categoryId == Some(p.category.id) && f.images == p.images
  {
    FormValue(p.title, Some(p.price), p.description, Some(p.category.id), p.images)
  }

  /** Submitting an unedited loaded form sends the product's own values back,
      and it is accepted exactly when the product itself meets the rules. */
  lemma LoadedFormRoundTrip(p: Product)
    ensures RequestBody(FormOf(p)) == ProductUpdateDto(p.title, p.price, p.description, p.category.id, p.images)
    ensures FormValid(FormOf(p)) <==> (|p.title| >= MinTitleLength && p.price >= MinPrice &&
      |p.description| >= MinDescriptionLength && MinCategoryId <= p.category.id <= MaxCategoryId && |p.images| >= 1)
  {
  }

  /** The freshly built form is never valid. */
  lemma EmptyFormInvalid()
    ensures !FormValid(EmptyForm)
  {
  }
}
