/** The header's instant search: a local search over the products the store
    holds, capped at ten results, and the field's show / hide bookkeeping. */
module HeaderSearch {
  import opened Wrappers
  import opened Seqs
  import opened Text
  import opened ProductModel
  import opened Router

  /** At most this many results are shown. */
  const MaxResults := 10

  /** A term must be longer than this to be searched for. */
  const MinTermLength := 2

  /** The local search's predicate: the lower-cased, trimmed term occurs in
      the lower-cased title, description or category name, or the raw term
      occurs in the decimal price. */
  predicate Matches(p: Product, term: string) {
    var t := Trim(Lower(term));
    Contains(Lower(p.title), t) || Contains(Lower(p.description), t) ||
    Contains(IntToString(p.price), term) || Contains(Lower(p.category.name), t)
  }

  /** `performLocalSearch`: the first ten products that match, in store order. */
  function LocalSearch(products: seq<Product>, term: string): (r: seq<Product>)
    ensures |r| <= MaxResults
    ensures forall i :: 0 <= i < |r| ==> r[i] in products && Matches(r[i], term)
    ensures var hits := Filter((p: Product) => Matches(p, term), products);
      r <= hits && |r| == Min(|hits|, MaxResults)
  {
    var hits := Filter((p: Product) => Matches(p, term), products);
    hits[..Min(|hits|, MaxResults)]
  }

  /** Results are taken from the store in its order; with at most ten matches
      every match is among them. */
  lemma LocalSearchInOrder(products: seq<Product>, term: string)
    ensures IsSubsequence(LocalSearch(products, term), products)
    ensures |Filter((p: Product) => Matches(p, term), products)| <= MaxResults ==>
      forall i :: 0 <= i < |products| && Matches(products[i], term) ==> products[i] in LocalSearch(products, term)
  {
    var f := (p: Product) => Matches(p, term);
    var hits := Filter(f, products);
    FilterIsSubsequence(f, products);
    SubsequencePrefix(hits, products, Min(|hits|, MaxResults));
    if |hits| <= MaxResults {
      assert hits[..|hits|] == hits;
    }
  }

  /** A product whose lower-cased title is the lower-cased, trimmed term is found. */
  lemma TitleHitMatches(p: Product, term: string)
    requires Lower(p.title) == Trim(Lower(term))
    ensures Matches(p, term)
  {
    ContainsSelf(Lower(p.title));
  }

  class HeaderSearchComponent {
    /** The search field's value (`searchControl.value || ''`). */
    var value: string
    var showResults: bool
    var searchResults: seq<Product>
    var hasSearched: bool
    /** Values emitted on `search` and `productSelected`, and navigations made. */
    var searchEmitted: seq<string>
    var selectedEmitted: seq<Product>
    var navigations: seq<Navigation>

    constructor ()
      ensures value == "" && !showResults && searchResults == [] && !hasSearched
      ensures searchEmitted == [] && selectedEmitted == [] && navigations == []
    {
      value := "";
      showResults := false;
      searchResults := [];
      hasSearched := false;
      searchEmitted := [];
      selectedEmitted := [];
      navigations := [];
    }

    /** Emit the term; show results for terms longer than two characters,
        otherwise hide and empty them. */
    method OnSearchTermChange(term: string)
      modifies this
      ensures searchEmitted == old(searchEmitted) + [term]
      ensures showResults <==> |term| > MinTermLength
      ensures hasSearched <==> |term| > MinTermLength
      ensures |term| > MinTermLength ==> searchResults == old(searchResults)
      ensures |term| <= MinTermLength ==> searchResults == []
      ensures value == old(value) && selectedEmitted == old(selectedEmitted) && navigations == old(navigations)
    {
      searchEmitted := searchEmitted + [term];
      if |term| > MinTermLength {
        showResults := true;
        hasSearched := true;
      } else {
        showResults := false;
        searchResults := [];
        hasSearched := false;
      }
    }

    /** Search the store's current `products`; a short term finds nothing. */
    method PerformSearch(term: string, products: seq<Product>) returns (results: seq<Product>)
      modifies this
      ensures |term| <= MinTermLength ==> results == []
      ensures |term| > MinTermLength ==> results == LocalSearch(products, term)
      ensures searchResults == results
      ensures value == old(value) && showResults == old(showResults) && hasSearched == old(hasSearched)
      ensures searchEmitted == old(searchEmitted) && selectedEmitted == old(selectedEmitted) && navigations == old(navigations)
    {
      if |term| <= MinTermLength {
        searchResults := [];
        return [];
      }
      var hits := Filter((p: Product) => Matches(p, term), products);
      searchResults := hits[..Min(|hits|, MaxResults)];
      results := searchResults;
    }

    /** The field settles on `term`: the term is announced, then searched. */
    method OnValueSettled(term: string, products: seq<Product>)
      modifies this
      ensures value == term
      ensures searchEmitted == old(searchEmitted) + [term]
      ensures (showResults <==> |term| > MinTermLength) && (hasSearched <==> |term| > MinTermLength)
      ensures searchResults == if |term| > MinTermLength then LocalSearch(products, term) else []
      ensures |searchResults| <= MaxResults
      ensures selectedEmitted == old(selectedEmitted) && navigations == old(navigations)
    {
      value := term;
      OnSearchTermChange(term);
      var _ := PerformSearch(term, products);
    }

    method ClearSearch()
      modifies this
      ensures value == "" && !showResults && searchResults == [] && !hasSearched
      ensures searchEmitted == old(searchEmitted) + [""]
      ensures selectedEmitted == old(selectedEmitted) && navigations == old(navigations)
    {
      value := "";
      showResults := false;
      searchResults := [];
      hasSearched := false;
      searchEmitted := searchEmitted + [""];
    }

    /** Picking a result announces it, clears the field and opens the product page. */
    method SelectProduct(p: Product)
      modifies this
      ensures selectedEmitted == old(selectedEmitted) + [p]
      ensures !showResults && value == ""
      ensures searchEmitted == old(searchEmitted) + [""]
      ensures navigations == old(navigations) + [Navigation(["/products", IntToString(p.id)], map[], false)]
      ensures searchResults == old(searchResults) && hasSearched == old(hasSearched)
    {
      selectedEmitted := selectedEmitted + [p];
      showResults := false;
      value := "";
      searchEmitted := searchEmitted + [""];
      navigations := navigations + [Navigation(["/products", IntToString(p.id)], map[], false)];
    }

    /** "Show all results": only with a non-empty value, to the product list
        with the term as the `search` parameter. */
    method ViewAllResults()
      modifies this
      ensures value != "" ==> (!showResults &&
        navigations == old(navigations) + [Navigation(["/products"], map["search" := Some(value)], false)])
      ensures value == "" ==> showResults == old(showResults) && navigations == old(navigations)
      ensures value == old(value) && searchResults == old(searchResults) && hasSearched == old(hasSearched)
      ensures searchEmitted == old(searchEmitted) && selectedEmitted == old(selectedEmitted)
    {
      if value != "" {
        navigations := navigations + [Navigation(["/products"], map["search" := Some(value)], false)];
        showResults := false;
      }
    }

    /** Focusing the field shows results again only for a value longer than two characters. */
    method OnFocus()
      modifies this
      ensures showResults == (old(showResults) || |value| > MinTermLength)
      ensures value == old(value) && searchResults == old(searchResults) && hasSearched == old(hasSearched)
      ensures searchEmitted == old(searchEmitted) && selectedEmitted == old(selectedEmitted) && navigations == old(navigations)
    {
      if |value| > MinTermLength {
        showResults := true;
      }
    }

    method HideResults()
      modifies this
      ensures !showResults
      ensures value == old(value) && searchResults == old(searchResults) && hasSearched == old(hasSearched)
      ensures searchEmitted == old(searchEmitted) && selectedEmitted == old(selectedEmitted) && navigations == old(navigations)
    {
      showResults := false;
    }
  }
}
