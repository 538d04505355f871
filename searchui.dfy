/** The search-filter panel (both the current component and the older copy
    of it, which behave alike): a keyed change to the filter record, the
    reset, the remove-or-append toggles, and the price inputs. Each handler
    computes the record it hands to `onFiltersChange`. */
module SearchFiltersUi {
  import opened Util
  import opened PropertyQuery

  /** The filter record the client works with. */
  type ClientFilters = Filters<nat>

  /** The record `clearFilters` emits and the pages start from. */
  const DefaultFilters: ClientFilters :=
    Filters(PriceRange(DefaultMinPrice, DefaultMaxPrice), [], [], [], DefaultListingType, "")

  /** One call of `handleFilterChange(key, value)`: the key with its value. */
  datatype Change =
    | SetPriceRange(range: PriceRange<nat>)
    | SetBedrooms(bedrooms: seq<nat>)
    | SetBathrooms(bathrooms: seq<nat>)
    | SetPropertyTypes(types: seq<PropertyType>)
    | SetListingType(listingType: string)
    | SetLocation(location: string)

  /** `{...filters, [key]: value}`: the keyed field takes the value and
      every other field is kept. */
  function FilterChange(f: ClientFilters, c: Change): (r: ClientFilters)
    ensures c.SetPriceRange? ==> r.priceRange == c.range
    ensures !c.SetPriceRange? ==> r.priceRange == f.priceRange
    ensures c.SetBedrooms? ==> r.bedrooms == c.bedrooms
    ensures !c.SetBedrooms? ==> r.bedrooms == f.bedrooms
    ensures c.SetBathrooms? ==> r.bathrooms == c.bathrooms
    ensures !c.SetBathrooms? ==> r.bathrooms == f.bathrooms
    ensures c.SetPropertyTypes? ==> r.propertyTypes == c.types
    ensures !c.SetPropertyTypes? ==> r.propertyTypes == f.propertyTypes
    ensures c.SetListingType? ==> r.listingType == c.listingType
    ensures !c.SetListingType? ==> r.listingType == f.listingType
    ensures c.SetLocation? ==> r.location == c.location
    ensures !c.SetLocation? ==> r.location == f.location
  {
    match c
    case SetPriceRange(v) => f.(priceRange := v)
    case SetBedrooms(v) => f.(bedrooms := v)
    case SetBathrooms(v) => f.(bathrooms := v)
    case SetPropertyTypes(v) => f.(propertyTypes := v)
    case SetListingType(v) => f.(listingType := v)
    case SetLocation(v) => f.(location := v)
  }

  /** Setting a key twice is setting it once, to the later value. */
  lemma FilterChangeOverwrites(f: ClientFilters, c: Change, d: Change)
    requires c.SetPriceRange? == d.SetPriceRange? && c.SetBedrooms? == d.SetBedrooms?
    requires c.SetBathrooms? == d.SetBathrooms? && c.SetPropertyTypes? == d.SetPropertyTypes?
    requires c.SetListingType? == d.SetListingType?
    ensures FilterChange(FilterChange(f, c), d) == FilterChange(f, d)
  {
  }

  /** Changes of two different keys commute. */
  lemma FilterChangesCommute(f: ClientFilters, c: Change, d: Change)
    requires !(c.SetPriceRange? && d.SetPriceRange?) && !(c.SetBedrooms? && d.SetBedrooms?)
    requires !(c.SetBathrooms? && d.SetBathrooms?) && !(c.SetPropertyTypes? && d.SetPropertyTypes?)
    requires !(c.SetListingType? && d.SetListingType?) && !(c.SetLocation? && d.SetLocation?)
    ensures FilterChange(FilterChange(f, c), d) == FilterChange(FilterChange(f, d), c)
  {
  }

  /** What `clearFilters` does: the default record, an empty search box, and
      a search for the empty text. */
  datatype Cleared = Cleared(filters: ClientFilters, searchQuery: string, searched: string)

  function ClearFilters(): (r: Cleared)
    ensures r.filters.priceRange == PriceRange(0, 10000000)
    ensures r.filters.bedrooms == [] && r.filters.bathrooms == [] && r.filters.propertyTypes == []
    ensures r.filters.listingType == "sale" && r.filters.location == ""
    ensures r.searchQuery == "" && r.searched == ""
  {
    Cleared(DefaultFilters, "", "")
  }

  /** The default record sent to the server asks for sale listings in the
      default price range and nothing else. */
  lemma DefaultsEncoded()
    ensures EncodeParams(Some(DefaultFilters), "") ==
      [(ListingType, "sale"), (MinPrice, "0"), (MaxPrice, "10000000")]
  {
    assert NatToDecimal(0) == "0";
    assert NatToDecimal(1) == "1";
    assert NatToDecimal(10) == "10";
    assert NatToDecimal(100) == "100";
    assert NatToDecimal(1000) == "1000";
    assert NatToDecimal(10000) == "10000";
    assert NatToDecimal(100000) == "100000";
    assert NatToDecimal(1000000) == "1000000";
    assert NatToDecimal(10000000) == "10000000";
  }

  /** The bedroom button: remove the number when selected, else append it. */
  function ToggleBedroom(f: ClientFilters, n: nat): (r: ClientFilters)
    ensures n in r.bedrooms <==> n !in f.bedrooms
    ensures forall m :: m != n ==> (m in r.bedrooms <==> m in f.bedrooms)
    ensures r == f.(bedrooms := r.bedrooms) && r.bedrooms == Toggle(f.bedrooms, n)
  {
    ToggleMembership(f.bedrooms, n);
    FilterChange(f, SetBedrooms(Toggle(f.bedrooms, n)))
  }

  /** The bathroom button, by the same rule. */
  function ToggleBathroom(f: ClientFilters, n: nat): (r: ClientFilters)
    ensures n in r.bathrooms <==> n !in f.bathrooms
    ensures forall m :: m != n ==> (m in r.bathrooms <==> m in f.bathrooms)
    ensures r == f.(bathrooms := r.bathrooms) && r.bathrooms == Toggle(f.bathrooms, n)
  {
    ToggleMembership(f.bathrooms, n);
    FilterChange(f, SetBathrooms(Toggle(f.bathrooms, n)))
  }

  /** The property-type button, by the same rule. */
  function ToggleType(f: ClientFilters, t: PropertyType): (r: ClientFilters)
    ensures t in r.propertyTypes <==> t !in f.propertyTypes
    ensures forall u :: u != t ==> (u in r.propertyTypes <==> u in f.propertyTypes)
    ensures r == f.(propertyTypes := r.propertyTypes) && r.propertyTypes == Toggle(f.propertyTypes, t)
  {
    ToggleMembership(f.propertyTypes, t);
    FilterChange(f, SetPropertyTypes(Toggle(f.propertyTypes, t)))
  }

  /** Pressing an unselected bedroom button twice restores the record, and a
      list without repeats keeps none. */
  lemma ToggleBedroomTwice(f: ClientFilters, n: nat)
    requires n !in f.bedrooms
    ensures ToggleBedroom(ToggleBedroom(f, n), n) == f
  {
    ToggleTwice(f.bedrooms, n);
  }

  lemma ToggleBedroomNoDuplicates(f: ClientFilters, n: nat)
    requires NoDuplicates(f.bedrooms)
    ensures NoDuplicates(ToggleBedroom(f, n).bedrooms)
  {
    ToggleNoDuplicates(f.bedrooms, n);
  }

  /** `parseInt(value) || 0`: text without leading digits, or zero, gives 0. */
  function MinFromInput(text: string): (r: nat)
    ensures ParseIntPrefix(text).None? ==> r == 0
    ensures ParseIntPrefix(text).Some? ==> r == ParseIntPrefix(text).value
  {
    if ParseIntPrefix(text).Some? then ParseIntPrefix(text).value else 0
  }

  /** `parseInt(value) || 10000000`: text without leading digits, or zero,
      gives the default maximum. */
  function MaxFromInput(text: string): (r: nat)
    ensures r != 0
    ensures ParseIntPrefix(text).None? || ParseIntPrefix(text) == Some(0) ==> r == DefaultMaxPrice
    ensures ParseIntPrefix(text).Some? && ParseIntPrefix(text).value != 0 ==> r == ParseIntPrefix(text).value
  {
    if ParseIntPrefix(text).Some? && ParseIntPrefix(text).value != 0 then ParseIntPrefix(text).value
    else DefaultMaxPrice
  }

  /** `filters.priceRange.min || ''`: a zero minimum shows as an empty box. */
  function MinDisplay(min: nat): (s: string)
    ensures s == "" <==> min == 0
  {
    if min == 0 then "" else NatToDecimal(min)
  }

  /** The default maximum shows as an empty box. */
  function MaxDisplay(max: nat): (s: string)
    ensures s == "" <==> max == DefaultMaxPrice
  {
    if max == DefaultMaxPrice then "" else NatToDecimal(max)
  }

  /** The minimum box reads back what it shows. */
  lemma MinDisplayRoundTrip(min: nat)
    ensures MinFromInput(MinDisplay(min)) == min
  {
    if min != 0 {
      ParseIntOfDecimal(min);
    }
  }

  /** The maximum box reads back what it shows, for every maximum but 0,
      which cannot be entered: it reads back as the default. */
  lemma MaxDisplayRoundTrip(max: nat)
    ensures max != 0 ==> MaxFromInput(MaxDisplay(max)) == max
    ensures MaxFromInput(MaxDisplay(0)) == DefaultMaxPrice
  {
    if max != DefaultMaxPrice {
      ParseIntOfDecimal(max);
    }
    ParseIntOfDecimal(0);
  }
}
