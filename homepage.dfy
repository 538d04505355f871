/** The two home pages. The older page filters an in-memory property list
    on the client; the current one shows the server's answer as it is.
    Both keep a favourites list and a "clear all" button. */
module HomePage {
  import opened Util
  import opened PropertyQuery
  import opened SearchFiltersUi
  import PropertyStore

  type Property = PropertyStore.Property

  // ---------------------------------------------------------------------------
  // The client-side filter of the older page

  /** The predicate handed to `properties.filter`, with its early returns. */
  function Keep(p: Property, searchQuery: string, f: ClientFilters): bool
  {
    if searchQuery != "" && !MatchesSearch(p, Lower(searchQuery)) then false
    else if p.listingType != f.listingType then false
    else if p.price < f.priceRange.min || p.price > f.priceRange.max then false
    else if |f.bedrooms| > 0 && !(exists b :: b in f.bedrooms && p.bedrooms >= b) then false
    else if |f.bathrooms| > 0 && !(exists b :: b in f.bathrooms && p.bathrooms >= b) then false
    else if |f.propertyTypes| > 0 && p.propertyType !in Names(f.propertyTypes) then false
    else true
  }

  /** The lower-cased query in the lower-cased title, address, city or state. */
  predicate MatchesSearch(p: Property, term: string)
  {
    || Util.Contains(Lower(p.title), term) || Util.Contains(Lower(p.address), term)
    || Util.Contains(Lower(p.city), term) || Util.Contains(Lower(p.state), term)
  }

  /** `filteredProperties`: the kept properties, in their order. */
  function FilteredProperties(ps: seq<Property>, searchQuery: string, f: ClientFilters): (r: seq<Property>)
    ensures forall p :: p in r <==> p in ps && Keep(p, searchQuery, f)
    ensures IsSubsequence(r, ps)
  {
    if ps == [] then []
    else if Keep(ps[0], searchQuery, f) then [ps[0]] + FilteredProperties(ps[1..], searchQuery, f)
    else
      var rest := FilteredProperties(ps[1..], searchQuery, f);
      assert rest != [] ==> rest[0] != ps[0];
      rest
  }

  /** What the filter promises about every property it keeps, and that it
      keeps every property meeting all of it: the query in one of four
      fields; the listing type; the price within the range, inclusive; a
      selected bedroom and bathroom count at most the property's ("2+"); a
      selected type. */
  lemma KeepExactly(p: Property, searchQuery: string, f: ClientFilters)
    ensures Keep(p, searchQuery, f) <==>
      && (searchQuery != "" ==> MatchesSearch(p, Lower(searchQuery)))
      && p.listingType == f.listingType
      && f.priceRange.min <= p.price <= f.priceRange.max
      && (|f.bedrooms| > 0 ==> exists b :: b in f.bedrooms && b <= p.bedrooms)
      && (|f.bathrooms| > 0 ==> exists b :: b in f.bathrooms && b <= p.bathrooms)
      && (|f.propertyTypes| > 0 ==> exists t :: t in f.propertyTypes && t.Name() == p.propertyType)
  {
    if |f.propertyTypes| > 0 {
      assert (exists t :: t in f.propertyTypes && t.Name() == p.propertyType) <==> p.propertyType in Names(f.propertyTypes) by {
        if p.propertyType in Names(f.propertyTypes) {
          var i :| 0 <= i < |f.propertyTypes| && Names(f.propertyTypes)[i] == p.propertyType;
          assert f.propertyTypes[i] in f.propertyTypes;
        }
      }
    }
  }

  /** The location field is never consulted. */
  lemma LocationIgnored(ps: seq<Property>, searchQuery: string, f: ClientFilters, location: string)
    ensures FilteredProperties(ps, searchQuery, f.(location := location)) == FilteredProperties(ps, searchQuery, f)
  {
    assert forall p :: Keep(p, searchQuery, f.(location := location)) == Keep(p, searchQuery, f);
    SameFilter(ps, searchQuery, f, f.(location := location));
  }

  lemma {:induction false} SameFilter(ps: seq<Property>, q: string, f: ClientFilters, g: ClientFilters)
    requires forall p :: Keep(p, q, f) == Keep(p, q, g)
    ensures FilteredProperties(ps, q, f) == FilteredProperties(ps, q, g)
  {
    if ps != [] {
      SameFilter(ps[1..], q, f, g);
    }
  }

  /** Filtering the filtered list again changes nothing. */
  lemma {:induction false} FilterIdempotent(ps: seq<Property>, q: string, f: ClientFilters)
    ensures FilteredProperties(FilteredProperties(ps, q, f), q, f) == FilteredProperties(ps, q, f)
  {
    if ps != [] {
      FilterIdempotent(ps[1..], q, f);
    }
  }

  // ---------------------------------------------------------------------------
  // The current page

  /** `filteredProperties = properties`: the server's list, unfiltered. */
  function Displayed(serverResult: seq<Property>): (r: seq<Property>)
    ensures r == serverResult
  {
    serverResult
  }

  // ---------------------------------------------------------------------------
  // Favourites and "clear all", alike on both pages

  /** `handleFavorite(id)`: every occurrence removed when present, else one
      appended. */
  function HandleFavorite(favorites: seq<string>, id: string): (r: seq<string>)
    ensures id in r <==> id !in favorites
    ensures id in favorites ==> forall x :: x in r <==> x in favorites && x != id
    ensures id in favorites ==> IsSubsequence(r, favorites) && multiset(r) == multiset(favorites)[id := 0]
    ensures id !in favorites ==> r == favorites + [id]
  {
    ToggleMembership(favorites, id);
    Toggle(favorites, id)
  }

  /** Favouriting twice undoes it, and a list without repeats keeps none. */
  lemma FavoriteTwice(favorites: seq<string>, id: string)
    requires id !in favorites
    ensures HandleFavorite(HandleFavorite(favorites, id), id) == favorites
  {
    ToggleTwice(favorites, id);
  }

  lemma FavoritesStayDistinct(favorites: seq<string>, id: string)
    requires NoDuplicates(favorites)
    ensures NoDuplicates(HandleFavorite(favorites, id))
  {
    ToggleNoDuplicates(favorites, id);
  }

  /** The page's filter state with its search box. */
  datatype PageState = PageState(filters: ClientFilters, searchQuery: string)

  /** The page's first state. */
  const Initial: PageState := PageState(DefaultFilters, "")

  /** "Clear all filters": the defaults, but the listing type stays; the
      search is emptied. */
  function ClearAll(s: PageState): (r: PageState)
    ensures r.searchQuery == ""
    ensures r.filters.listingType == s.filters.listingType
    ensures r.filters == DefaultFilters.(listingType := s.filters.listingType)
  {
    PageState(Filters(PriceRange(DefaultMinPrice, DefaultMaxPrice), [], [], [], s.filters.listingType, ""), "")
  }

  /** From a sale search, "clear all" returns to the first state; from a
      rent search it differs from it only in the listing type. */
  lemma ClearAllFromSale(s: PageState)
    ensures s.filters.listingType == DefaultListingType ==> ClearAll(s) == Initial
    ensures ClearAll(s).filters.(listingType := DefaultListingType) == Initial.filters
  {
  }

  /** After "clear all", the older page keeps exactly the properties of the
      current listing type within the default price range. */
  lemma ClearAllKeeps(p: Property, s: PageState)
    ensures Keep(p, "", ClearAll(s).filters) <==>
              p.listingType == s.filters.listingType && p.price <= DefaultMaxPrice
  {
  }
}
