/** The server-side property service: the `where` object `getProperties`
    builds from a filter record, the search and featured queries, and the
    conversion of a stored row into the client's property record. The
    database itself is a sequence of rows; its ordering clauses are not
    modelled (rows are taken in the order given). */
module PropertyStore {
  import opened Util
  import opened PropertyQuery

  // ---------------------------------------------------------------------------
  // Stored rows and client records

  datatype ImageRow = ImageRow(url: string, order: int)

  /** An agent row joined with its user (whose name may be null). */
  datatype AgentRow = AgentRow(userName: Option<string>, phone: string, email: string)

  /** A property row with its images and agent included. `features` is the
      decoded JSON list, `None` for null; `listedDate` is its ISO timestamp. */
  datatype Row = Row(
    id: string,
    title: string,
    address: string,
    city: string,
    state: string,
    zipCode: string,
    price: nat,
    bedrooms: nat,
    bathrooms: nat,
    squareFootage: nat,
    propertyType: string,
    listingType: string,
    images: seq<ImageRow>,
    description: string,
    features: Option<seq<string>>,
    yearBuilt: Option<nat>,
    lotSize: Option<nat>,
    parkingSpaces: Option<nat>,
    listedDate: string,
    agent: Option<AgentRow>,
    status: string)

  datatype AgentInfo = AgentInfo(name: string, phone: string, email: string)

  /** The client-side `Property` record. */
  datatype Property = Property(
    id: string,
    title: string,
    address: string,
    city: string,
    state: string,
    zipCode: string,
    price: nat,
    bedrooms: nat,
    bathrooms: nat,
    squareFootage: nat,
    propertyType: string,
    listingType: string,
    images: seq<string>,
    description: string,
    features: seq<string>,
    yearBuilt: Option<nat>,
    lotSize: Option<nat>,
    parkingSpaces: Option<nat>,
    listedDate: string,
    agent: Option<AgentInfo>)

  const Active: string := "ACTIVE"
  const UnknownAgent: string := "Unknown Agent"

  // ---------------------------------------------------------------------------
  // The where object

  /** The columns a `contains` clause can name. */
  datatype Column = Title | Description | City | Address | State | ZipCode

  function ColumnText(row: Row, c: Column): string
  {
    match c
    case Title => row.title
    case Description => row.description
    case City => row.city
    case Address => row.address
    case State => row.state
    case ZipCode => row.zipCode
  }

  datatype Clause = Contains(column: Column, term: string)

  datatype PriceBounds = PriceBounds(gte: Option<nat>, lte: Option<nat>)

  /** The `where` object: `status` always; each other key only once set. */
  datatype Where = Where(
    status: string,
    listingType: Option<string>,
    price: Option<PriceBounds>,
    bedrooms: Option<seq<Option<nat>>>,
    bathrooms: Option<seq<Option<nat>>>,
    propertyType: Option<seq<string>>,
    anyOf: Option<seq<Clause>>)

  /** A comparison with `NaN` never holds. */
  predicate AtLeast(x: nat, bound: Option<nat>) { bound.Some? && x >= bound.value }
  predicate AtMost(x: nat, bound: Option<nat>) { bound.Some? && x <= bound.value }

  // How the database reads each key of a `where` object: an absent key
  // constrains nothing, `in` is membership, `OR` needs one clause to hold.

  predicate ListingClause(v: Option<string>, row: Row) { v.None? || row.listingType == v.value }

  predicate PriceClause(v: Option<PriceBounds>, row: Row)
  {
    v.None? || (AtLeast(row.price, v.value.gte) && AtMost(row.price, v.value.lte))
  }

  predicate CountClause(v: Option<seq<Option<nat>>>, count: nat) { v.None? || Some(count) in v.value }

  predicate TypeClause(v: Option<seq<string>>, row: Row) { v.None? || row.propertyType in v.value }

  predicate AnyClause(v: Option<seq<Clause>>, row: Row)
  {
    v.None? || exists c :: c in v.value && Util.Contains(ColumnText(row, c.column), c.term)
  }

  /** A row matches a `where` object when every key present holds. */
  predicate Matches(w: Where, row: Row)
  {
    && row.status == w.status
    && ListingClause(w.listingType, row)
    && PriceClause(w.price, row)
    && CountClause(w.bedrooms, row.bedrooms)
    && CountClause(w.bathrooms, row.bathrooms)
    && TypeClause(w.propertyType, row)
    && AnyClause(w.anyOf, row)
  }

  // What a filter record asks of a row, stated directly.

  /** The upper-cased listing type, when one is set. */
  predicate WantsListing(listingType: string, row: Row)
  {
    listingType != "" ==> row.listingType == Upper(listingType)
  }

  /** A price within both bounds, inclusive. */
  predicate WantsPrice(range: PriceRange<Option<nat>>, row: Row)
  {
    AtLeast(row.price, range.min) && AtMost(row.price, range.max)
  }

  /** A count among the selected ones, when a selection is made. */
  predicate WantsCount(selected: seq<Option<nat>>, count: nat)
  {
    |selected| > 0 ==> Some(count) in selected
  }

  /** An upper-cased selected type, when a selection is made. */
  predicate WantsType(types: seq<PropertyType>, row: Row)
  {
    |types| > 0 ==> exists t :: t in types && row.propertyType == Upper(t.Name())
  }

  /** The lower-cased location in the city, address or state, or the
      location as typed in the zip code. */
  predicate WantsLocation(location: string, row: Row)
  {
    location != "" ==>
      || Util.Contains(row.city, Lower(location))
      || Util.Contains(row.address, Lower(location))
      || Util.Contains(row.state, Lower(location))
      || Util.Contains(row.zipCode, location)
  }

  /** An active row meeting every filter that is set. */
  predicate Satisfies(filters: Option<ParsedFilters>, row: Row)
  {
    && row.status == Active
    && (filters.Some? ==>
        var f := filters.value;
        && WantsListing(f.listingType, row)
        && WantsPrice(f.priceRange, row)
        && WantsCount(f.bedrooms, row.bedrooms)
        && WantsCount(f.bathrooms, row.bathrooms)
        && WantsType(f.propertyTypes, row)
        && WantsLocation(f.location, row))
  }

  /** `filters.propertyTypes.map(type => type.toUpperCase())`. */
  function UpperNames(ts: seq<PropertyType>): (r: seq<string>)
    ensures forall s :: s in r <==> exists t :: t in ts && s == Upper(t.Name())
  {
    if ts == [] then [] else [Upper(ts[0].Name())] + UpperNames(ts[1..])
  }

  /** The four `OR` clauses of a location filter. */
  function LocationClauses(location: string): (cs: seq<Clause>)
    requires location != ""
    ensures forall row :: AnyClause(Some(cs), row) <==> WantsLocation(location, row)
  {
    var term := Lower(location);
    var cs := [Contains(City, term), Contains(Address, term), Contains(State, term), Contains(ZipCode, location)];
    assert cs[0] in cs && cs[1] in cs && cs[2] in cs && cs[3] in cs;
    cs
  }

  /** `getProperties`: the `where` object grown by conditional assignments.
      A row matches it exactly when it satisfies the filter record. */
  method BuildWhere(filters: Option<ParsedFilters>) returns (w: Where)
    ensures w.status == Active
    ensures forall row :: Matches(w, row) <==> Satisfies(filters, row)
  {
    w := Where(Active, None, None, None, None, None, None);
    if filters.Some? {
      var f := filters.value;
      if f.listingType != "" {
        w := w.(listingType := Some(Upper(f.listingType)));
      }
      assert forall row :: ListingClause(w.listingType, row) <==> WantsListing(f.listingType, row);
      w := w.(price := Some(PriceBounds(f.priceRange.min, f.priceRange.max)));
      assert forall row :: PriceClause(w.price, row) <==> WantsPrice(f.priceRange, row);
      if |f.bedrooms| > 0 {
        w := w.(bedrooms := Some(f.bedrooms));
      }
      assert forall n :: CountClause(w.bedrooms, n) <==> WantsCount(f.bedrooms, n);
      if |f.bathrooms| > 0 {
        w := w.(bathrooms := Some(f.bathrooms));
      }
      assert forall n :: CountClause(w.bathrooms, n) <==> WantsCount(f.bathrooms, n);
      if |f.propertyTypes| > 0 {
        w := w.(propertyType := Some(UpperNames(f.propertyTypes)));
      }
      assert forall row :: TypeClause(w.propertyType, row) <==> WantsType(f.propertyTypes, row);
      if f.location != "" {
        w := w.(anyOf := Some(LocationClauses(f.location)));
      }
      assert forall row :: AnyClause(w.anyOf, row) <==> WantsLocation(f.location, row);
    }
  }

  /** `searchProperties(query)`: active rows whose title, description, city,
      address, state or zip code contains the query as typed. */
  function SearchWhere(query: string): (w: Where)
    ensures forall row :: Matches(w, row) <==>
      row.status == Active &&
      (|| Util.Contains(row.title, query) || Util.Contains(row.description, query)
       || Util.Contains(row.city, query) || Util.Contains(row.address, query)
       || Util.Contains(row.state, query) || Util.Contains(row.zipCode, query))
  {
    var cs := [Contains(Title, query), Contains(Description, query), Contains(City, query),
               Contains(Address, query), Contains(State, query), Contains(ZipCode, query)];
    var w := Where(Active, None, None, None, None, None, Some(cs));
    assert forall row: Row :: Util.Contains(row.title, query) ==> Matches(w, row) || row.status != Active by {
      assert cs[0] in cs;
    }
    w
  }

  /** The rows a `where` object selects, in database order. */
  function Select(w: Where, rows: seq<Row>): (r: seq<Row>)
    ensures forall row :: row in r <==> row in rows && Matches(w, row)
    ensures IsSubsequence(r, rows)
  {
    if rows == [] then []
    else if Matches(w, rows[0]) then [rows[0]] + Select(w, rows[1..])
    else
      var rest := Select(w, rows[1..]);
      assert rest != [] ==> rest[0] != rows[0];
      rest
  }

  /** `getFeaturedProperties(limit)`: at most `limit` active rows, taken in
      database order (the price and date ordering is not modelled). */
  function FeaturedRows(rows: seq<Row>, limit: nat): (r: seq<Row>)
    ensures |r| <= limit
    ensures forall row :: row in r ==> row in rows && row.status == Active
  {
    var active := Select(Where(Active, None, None, None, None, None, None), rows);
    FeaturedSlice(active, limit)
  }

  // ---------------------------------------------------------------------------
  // convertPrismaProperty

  predicate SortedByOrder(xs: seq<ImageRow>)
  {
    forall i, j :: 0 <= i < j < |xs| ==> xs[i].order <= xs[j].order
  }

  /** A sequence stays sorted with an element no larger than its members in front. */
  lemma SortedCons(y: ImageRow, ys: seq<ImageRow>)
    requires SortedByOrder(ys)
    requires forall z :: z in ys ==> y.order <= z.order
    ensures SortedByOrder([y] + ys)
  {
    var r := [y] + ys;
    forall i, j | 0 <= i < j < |r|
      ensures r[i].order <= r[j].order
    {
      if i > 0 {
        assert r[i] == ys[i - 1] && r[j] == ys[j - 1];
      } else {
        assert r[j] == ys[j - 1];
      }
    }
  }

  /** Insertion in front of the first image with a larger or equal order. */
  function InsertByOrder(x: ImageRow, xs: seq<ImageRow>): (r: seq<ImageRow>)
    requires SortedByOrder(xs)
    ensures SortedByOrder(r)
    ensures multiset(r) == multiset(xs) + multiset{x}
    ensures forall y :: y in r ==> y == x || y in xs
  {
    if xs == [] then [x]
    else if x.order <= xs[0].order then [x] + xs
    else
      var rest := InsertByOrder(x, xs[1..]);
      assert xs == [xs[0]] + xs[1..];
      SortedCons(xs[0], rest);
      [xs[0]] + rest
  }

  /** `images.sort((a, b) => a.order - b.order)`: ascending by `order`, a
      permutation of the input. */
  function SortByOrder(xs: seq<ImageRow>): (r: seq<ImageRow>)
    ensures SortedByOrder(r)
    ensures multiset(r) == multiset(xs)
  {
    if xs == [] then []
    else
      assert xs == [xs[0]] + xs[1..];
      InsertByOrder(xs[0], SortByOrder(xs[1..]))
  }

  /** The query already orders images by `order`, and sorting sorted images
      changes nothing. */
  lemma {:induction false} SortSortedUnchanged(xs: seq<ImageRow>)
    requires SortedByOrder(xs)
    ensures SortByOrder(xs) == xs
  {
    if xs != [] {
      SortSortedUnchanged(xs[1..]);
      assert xs == [xs[0]] + xs[1..];
    }
  }

  function Urls(xs: seq<ImageRow>): (r: seq<string>)
    ensures |r| == |xs| && forall i :: 0 <= i < |xs| ==> r[i] == xs[i].url
  {
    seq(|xs|, i requires 0 <= i < |xs| => xs[i].url)
  }

  /** `x || undefined` on an optional number: 0 counts as absent. */
  function NonZero(x: Option<nat>): (r: Option<nat>)
    ensures r.Some? <==> x.Some? && x.value != 0
    ensures r.Some? ==> r == x
  {
    if x.Some? && x.value != 0 then x else None
  }

  /** `toISOString().split('T')[0]`: the date part of the timestamp, that is
      everything before the first `T` (all of it when there is none). */
  function DatePart(iso: string): (d: string)
    ensures 'T' !in d
    ensures d <= iso && (d == iso || iso[|d|] == 'T')
  {
    Split(iso, 'T')[0]
  }

  /** `convertPrismaProperty`. */
  function Convert(row: Row): (p: Property)
    ensures p.propertyType == Lower(row.propertyType) && p.listingType == Lower(row.listingType)
    ensures |p.images| == |row.images|
    ensures exists sorted :: SortedByOrder(sorted) && multiset(sorted) == multiset(row.images) && p.images == Urls(sorted)
    ensures row.features.None? ==> p.features == []
    ensures row.features.Some? ==> p.features == row.features.value
    ensures p.agent.Some? <==> row.agent.Some?
    ensures row.agent.Some? ==> p.agent.value.name == OrElse(OrEmpty(row.agent.value.userName), UnknownAgent)
    ensures row.agent.Some? ==> p.agent.value.name != ""
    ensures p.yearBuilt == NonZero(row.yearBuilt) && p.lotSize == NonZero(row.lotSize)
    ensures p.parkingSpaces == NonZero(row.parkingSpaces)
    ensures p.id == row.id && p.title == row.title && p.description == row.description
    ensures p.address == row.address && p.city == row.city && p.state == row.state && p.zipCode == row.zipCode
    ensures p.price == row.price && p.bedrooms == row.bedrooms && p.bathrooms == row.bathrooms
    ensures p.squareFootage == row.squareFootage
    ensures p.listedDate == DatePart(row.listedDate)
    ensures row.agent.Some? ==> p.agent.value.phone == row.agent.value.phone && p.agent.value.email == row.agent.value.email
  {
    var sorted := SortByOrder(row.images);
    assert |sorted| == |row.images| by {
      assert |multiset(sorted)| == |multiset(row.images)|;
    }
    Property(
      row.id, row.title, row.address, row.city, row.state, row.zipCode,
      row.price, row.bedrooms, row.bathrooms, row.squareFootage,
      Lower(row.propertyType), Lower(row.listingType),
      Urls(sorted),
      row.description,
      if row.features.Some? then row.features.value else [],
      NonZero(row.yearBuilt), NonZero(row.lotSize), NonZero(row.parkingSpaces),
      DatePart(row.listedDate),
      if row.agent.Some? then
        Some(AgentInfo(OrElse(OrEmpty(row.agent.value.userName), UnknownAgent),
                       row.agent.value.phone, row.agent.value.email))
      else None)
  }

  /** The rows satisfying a filter record, in database order. */
  function Satisfying(filters: Option<ParsedFilters>, rows: seq<Row>): (r: seq<Row>)
    ensures forall row :: row in r <==> row in rows && Satisfies(filters, row)
  {
    if rows == [] then []
    else if Satisfies(filters, rows[0]) then [rows[0]] + Satisfying(filters, rows[1..])
    else Satisfying(filters, rows[1..])
  }

  /** Two `where` objects that accept the same rows select the same rows. */
  lemma {:induction false} SelectSatisfying(w: Where, filters: Option<ParsedFilters>, rows: seq<Row>)
    requires forall row :: Matches(w, row) <==> Satisfies(filters, row)
    ensures Select(w, rows) == Satisfying(filters, rows)
  {
    if rows != [] {
      SelectSatisfying(w, filters, rows[1..]);
    }
  }

  function ConvertAll(rows: seq<Row>): (ps: seq<Property>)
    ensures |ps| == |rows| && forall i :: 0 <= i < |rows| ==> ps[i] == Convert(rows[i])
  {
    seq(|rows|, i requires 0 <= i < |rows| => Convert(rows[i]))
  }

  /** `getProperties(filters)`: build the `where` object, select, convert.
      The result is exactly the converted rows that satisfy the filters. */
  method GetProperties(rows: seq<Row>, filters: Option<ParsedFilters>) returns (ps: seq<Property>)
    ensures ps == ConvertAll(Satisfying(filters, rows))
  {
    var w := BuildWhere(filters);
    SelectSatisfying(w, filters, rows);
    ps := ConvertAll(Select(w, rows));
  }

  // ---------------------------------------------------------------------------
  // Round trip of the listing type through the where clause and conversion

  predicate NoUpperCase(s: string)
  {
    forall i :: 0 <= i < |s| ==> !('A' <= s[i] <= 'Z')
  }

  /** Lower-casing undoes upper-casing on text without capitals. */
  lemma LowerUpper(s: string)
    requires NoUpperCase(s)
    ensures Lower(Upper(s)) == s
  {
    assert forall i :: 0 <= i < |s| ==> LowerChar(UpperChar(s[i])) == s[i];
  }

  /** A row selected for the listing type `rent` (or any lower-case listing
      type) is returned to the client with that same listing type. */
  lemma SelectedListingType(filters: Option<ParsedFilters>, row: Row)
    requires filters.Some? && filters.value.listingType != "" && NoUpperCase(filters.value.listingType)
    requires Satisfies(filters, row)
    ensures Convert(row).listingType == filters.value.listingType
  {
    LowerUpper(filters.value.listingType);
  }
}
