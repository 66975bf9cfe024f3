/** The listing page's category and search filter (`src/pages/Home.jsx`),
    lifted out of the effect and timer that run it: an exact category filter
    unless "All Categories" is selected, then a case-insensitive substring
    search over title and description when a search term is given. */
module Listings {
  import opened Sequences
  import opened Text

  /** A listing as the page shows it (the seller record is left out). */
  datatype Listing = Listing(id: string, title: string, description: string, price: int,
                             condition: string, category: string, image: string,
                             location: string, distance: string, listingType: string,
                             datePosted: string)

  /** The category entry that switches the category filter off. */
  const AllCategories := "All Categories"

  /** The filter inputs: the selected category and the search box text. */
  datatype FilterState = FilterState(selectedCategory: string, searchTerm: string)

  predicate InCategory(l: Listing, selectedCategory: string) {
    selectedCategory == AllCategories || l.category == selectedCategory
  }

  /** Title or description contains the term, ignoring case; an empty term
      matches everything. */
  predicate MatchesTerm(l: Listing, searchTerm: string) {
    searchTerm == "" ||
    Contains(Lower(l.title), Lower(searchTerm)) || Contains(Lower(l.description), Lower(searchTerm))
  }

  /** The single predicate a listing has to pass to be shown. */
  predicate Selected(l: Listing, selectedCategory: string, searchTerm: string) {
    InCategory(l, selectedCategory) && MatchesTerm(l, searchTerm)
  }

  /** The body of the filter effect: two chained `filter` calls. */
  function FilterListings(listings: seq<Listing>, selectedCategory: string, searchTerm: string)
    : (results: seq<Listing>)
    ensures |results| <= |listings|
    ensures forall l :: l in results <==> l in listings && Selected(l, selectedCategory, searchTerm)
    ensures selectedCategory != AllCategories ==>
      forall i :: 0 <= i < |results| ==> results[i].category == selectedCategory
    ensures searchTerm != "" ==>
      forall i :: 0 <= i < |results| ==>
        Contains(Lower(results[i].title), Lower(searchTerm)) ||
        Contains(Lower(results[i].description), Lower(searchTerm))
  {
    var byCategory :=
      if selectedCategory != AllCategories
      then Filter((item: Listing) => item.category == selectedCategory, listings)
      else listings;
    if searchTerm != "" then
      var term := Lower(searchTerm);
      Filter((item: Listing) => Contains(Lower(item.title), term) || Contains(Lower(item.description), term),
             byCategory)
    else byCategory
  }

  /** Filtering by two predicates that agree everywhere gives the same
      result. */
  lemma {:induction false} FilterAgrees(p: Listing -> bool, q: Listing -> bool, s: seq<Listing>)
    requires forall l :: p(l) == q(l)
    ensures Filter(p, s) == Filter(q, s)
  {
    if s != [] {
      FilterAgrees(p, q, s[1..]);
    }
  }

  /** The two chained filters are one order-preserving filter by `Selected`. */
  lemma FilterListingsIsOneFilter(listings: seq<Listing>, selectedCategory: string, searchTerm: string)
    ensures FilterListings(listings, selectedCategory, searchTerm) ==
      Filter((l: Listing) => Selected(l, selectedCategory, searchTerm), listings)
  {
    var sel := (l: Listing) => Selected(l, selectedCategory, searchTerm);
    var byCat := (item: Listing) => item.category == selectedCategory;
    var term := Lower(searchTerm);
    var byTerm := (item: Listing) => Contains(Lower(item.title), term) || Contains(Lower(item.description), term);
    if selectedCategory == AllCategories && searchTerm == "" {
      FilterKeepsAll(sel, listings);
    } else if selectedCategory == AllCategories {
      FilterAgrees(byTerm, sel, listings);
    } else if searchTerm == "" {
      FilterAgrees(byCat, sel, listings);
    } else {
      FilterFuse(byCat, byTerm, sel, listings);
    }
  }

  /** The result is an order-preserving subsequence of the listings, and the
      filter distributes over concatenation. */
  lemma FilterListingsPreservesOrder(a: seq<Listing>, b: seq<Listing>, selectedCategory: string, searchTerm: string)
    ensures IsSubsequence(FilterListings(a, selectedCategory, searchTerm), a)
    ensures FilterListings(a + b, selectedCategory, searchTerm) ==
      FilterListings(a, selectedCategory, searchTerm) + FilterListings(b, selectedCategory, searchTerm)
  {
    var sel := (l: Listing) => Selected(l, selectedCategory, searchTerm);
    FilterListingsIsOneFilter(a, selectedCategory, searchTerm);
    FilterListingsIsOneFilter(b, selectedCategory, searchTerm);
    FilterListingsIsOneFilter(a + b, selectedCategory, searchTerm);
    FilterIsSubsequence(sel, a);
    FilterAppend(sel, a, b);
  }

  /** Re-filtering the shown listings with the same inputs changes nothing. */
  lemma FilterListingsIdempotent(listings: seq<Listing>, selectedCategory: string, searchTerm: string)
    ensures var shown := FilterListings(listings, selectedCategory, searchTerm);
      FilterListings(shown, selectedCategory, searchTerm) == shown
  {
    var sel := (l: Listing) => Selected(l, selectedCategory, searchTerm);
    var shown := FilterListings(listings, selectedCategory, searchTerm);
    FilterListingsIsOneFilter(listings, selectedCategory, searchTerm);
    FilterListingsIsOneFilter(shown, selectedCategory, searchTerm);
    FilterIdempotent(sel, listings);
  }

  /** The search ignores the case of the term: lower-casing it first gives
      the same listings. */
  lemma FilterListingsIgnoresTermCase(listings: seq<Listing>, selectedCategory: string, searchTerm: string)
    ensures FilterListings(listings, selectedCategory, searchTerm) ==
      FilterListings(listings, selectedCategory, Lower(searchTerm))
  {
    LowerIdempotent(searchTerm);
    assert (Lower(searchTerm) == "") == (searchTerm == "");
  }

  /** The Clear Filters button: empty search term, all categories. */
  function ClearFilters(f: FilterState): (r: FilterState)
    ensures r.searchTerm == "" && r.selectedCategory == AllCategories
  {
    f.(searchTerm := "", selectedCategory := AllCategories)
  }

  /** After Clear Filters every listing is shown, in its original order. */
  lemma ClearFiltersShowsAll(listings: seq<Listing>, f: FilterState)
    ensures var c := ClearFilters(f);
      FilterListings(listings, c.selectedCategory, c.searchTerm) == listings
  {
  }
}
