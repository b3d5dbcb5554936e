/** The accommodation list page: the filter recomputed from the full list
    whenever the price range, the search term or the selected type changes,
    and the slider that moves the upper price bound. */
module ListingPage {
  import opened Base
  import opened Text

  /** One card of the list; `kind` is the `type` field. */
  datatype Listing = Listing(id: string, name: string, address: string, price: int, kind: string)

  /** The page's filter state: `priceRange`, `searchTerm`, `selectedType`. */
  datatype Criteria = Criteria(minPrice: int, maxPrice: int, searchTerm: string, selectedType: string)

  /** The state the page starts in: range [0, 1000], no search, all types. */
  const InitialCriteria: Criteria := Criteria(0, 1000, "", "")

  /** The filter's predicate: price within the range (both ends included),
      the lower-cased name contains the lower-cased search term, and the type
      is either unrestricted or equal to the selected one. */
  predicate Matches(c: Criteria, l: Listing) {
    && c.minPrice <= l.price
    && l.price <= c.maxPrice
    && Includes(ToLower(l.name), ToLower(c.searchTerm))
    && (c.selectedType == "" || l.kind == c.selectedType)
  }

  /** `accommodations.filter(...)`: the matching listings, in their order,
      each as often as in the full list. */
  function FilterListings(all: seq<Listing>, c: Criteria): (r: seq<Listing>)
    ensures forall i :: 0 <= i < |r| ==> r[i] in all && Matches(c, r[i])
    ensures forall i :: 0 <= i < |all| && Matches(c, all[i]) ==> all[i] in r
    ensures IsSubsequence(r, all)
    ensures forall l :: multiset(r)[l] == if Matches(c, l) then multiset(all)[l] else 0
  {
    WhereIsSubsequence(all, (l: Listing) => Matches(c, l));
    WhereCounts(all, (l: Listing) => Matches(c, l));
    Where(all, (l: Listing) => Matches(c, l))
  }

  /** With no search term, no type and a range covering every price, the
      whole list is shown, in order. */
  lemma {:induction false} UnfilteredShowsAll(all: seq<Listing>, c: Criteria)
    requires c.searchTerm == "" && c.selectedType == ""
    requires forall i :: 0 <= i < |all| ==> c.minPrice <= all[i].price <= c.maxPrice
    ensures FilterListings(all, c) == all
  {
    assert ToLower("") == "";
    forall i | 0 <= i < |all|
      ensures Matches(c, all[i])
    {
      IncludesEmpty(ToLower(all[i].name));
    }
    WhereKeepsAll(all, (l: Listing) => Matches(c, l));
  }

  /** Lowering the upper bound never adds a listing: the narrower result is
      the wider one filtered again, hence a subsequence of it. */
  lemma {:induction false} LoweringMaxNeverAdds(all: seq<Listing>, c: Criteria, max: int)
    requires max <= c.maxPrice
    ensures FilterListings(FilterListings(all, c), c.(maxPrice := max)) == FilterListings(all, c.(maxPrice := max))
    ensures IsSubsequence(FilterListings(all, c.(maxPrice := max)), FilterListings(all, c))
  {
    var narrow := c.(maxPrice := max);
    WhereNarrowed(all, (l: Listing) => Matches(narrow, l), (l: Listing) => Matches(c, l));
    WhereIsSubsequence(FilterListings(all, c), (l: Listing) => Matches(narrow, l));
  }

  /** The slider's `onChange`: the upper bound takes the slider's value,
      everything else is kept. */
  function SlideMax(c: Criteria, value: int): (r: Criteria)
    ensures r.maxPrice == value
    ensures r == c.(maxPrice := r.maxPrice)
  {
    Criteria(c.minPrice, value, c.searchTerm, c.selectedType)
  }

  /** The criteria after a series of slider moves. */
  function SlideAll(c: Criteria, values: seq<int>): Criteria
    decreases |values|
  {
    if values == [] then c else SlideAll(SlideMax(c, values[0]), values[1..])
  }

  /** No slider move ever changes the lower bound, the search term or the
      type. */
  lemma {:induction false} SlidesKeepLowerBound(c: Criteria, values: seq<int>)
    ensures SlideAll(c, values).minPrice == c.minPrice
    ensures SlideAll(c, values).searchTerm == c.searchTerm
    ensures SlideAll(c, values).selectedType == c.selectedType
    ensures values != [] ==> SlideAll(c, values).maxPrice == values[|values| - 1]
    decreases |values|
  {
    if values != [] {
      SlidesKeepLowerBound(SlideMax(c, values[0]), values[1..]);
    }
  }

  /** From the page's initial state, the lower bound is 0 whatever the
      slider does. */
  lemma InitialLowerBoundStaysZero(values: seq<int>)
    ensures SlideAll(InitialCriteria, values).minPrice == 0
  {
    SlidesKeepLowerBound(InitialCriteria, values);
  }

  /** Because the filter always starts from the full list, narrowing and
      then widening the range back shows exactly what it showed before. */
  lemma WideningRestores(all: seq<Listing>, c: Criteria, narrow: int)
    ensures FilterListings(all, SlideMax(SlideMax(c, narrow), c.maxPrice)) == FilterListings(all, c)
  {
  }
}
