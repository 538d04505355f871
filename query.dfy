/** The listing query string: how the client service encodes a filter record
    and a search term as URL parameters, how the `GET /api/properties` route
    decodes them again, and how the client maps HTTP replies to results or
    errors. URL percent-encoding is not modelled: a parameter list is kept as
    the sequence of (name, value) pairs appended to it. */
module PropertyQuery {
  import opened Util

  const DefaultMinPrice: nat := 0
  const DefaultMaxPrice: nat := 10000000
  const DefaultListingType: string := "sale"

  /** `Property['propertyType']`: the four property types, with the text the
      client sends for each. */
  datatype PropertyType = House | Apartment | Condo | Townhouse
  {
    function Name(): string
    {
      match this
      case House => "house"
      case Apartment => "apartment"
      case Condo => "condo"
      case Townhouse => "townhouse"
    }
  }

  /** The route's type guard `['house', 'apartment', 'condo', 'townhouse'].includes(type)`. */
  function ParsePropertyType(s: string): (r: Option<PropertyType>)
    ensures forall t: PropertyType :: r == Some(t) <==> t.Name() == s
  {
    if s == "house" then Some(House)
    else if s == "apartment" then Some(Apartment)
    else if s == "condo" then Some(Condo)
    else if s == "townhouse" then Some(Townhouse)
    else None
  }

  function Names(ts: seq<PropertyType>): (r: seq<string>)
    ensures |r| == |ts| && forall k :: 0 <= k < |ts| ==> r[k] == ts[k].Name()
  {
    seq(|ts|, k requires 0 <= k < |ts| => ts[k].Name())
  }

  /** The filter record. `N` is `nat` on the client; on the server it is
      `Option<nat>`, where `None` stands for the `NaN` that `Number`/`parseInt`
      give on text that is not a numeral. */
  datatype PriceRange<N> = PriceRange(min: N, max: N)

  datatype Filters<N> = Filters(
    priceRange: PriceRange<N>,
    bedrooms: seq<N>,
    bathrooms: seq<N>,
    propertyTypes: seq<PropertyType>,
    listingType: string,
    location: string)

  type ParsedFilters = Filters<Option<nat>>

  /** The parameter names the client writes and the route reads. */
  datatype Name = Search | ListingType | MinPrice | MaxPrice | Bedrooms | Bathrooms | PropertyTypes | Location
  {
    function Text(): string
    {
      match this
      case Search => "search"
      case ListingType => "listingType"
      case MinPrice => "minPrice"
      case MaxPrice => "maxPrice"
      case Bedrooms => "bedrooms"
      case Bathrooms => "bathrooms"
      case PropertyTypes => "propertyTypes"
      case Location => "location"
    }
  }

  /** A `URLSearchParams` object: its (name, value) pairs in append order. */
  type Params = seq<(Name, string)>

  /** `params.get(name)`: the value of the first pair with that name. */
  function Get(ps: Params, name: Name): (r: Option<string>)
    ensures r.None? <==> forall p :: p in ps ==> p.0 != name
    ensures r.Some? ==> (name, r.value) in ps
  {
    if ps == [] then None
    else if ps[0].0 == name then Some(ps[0].1)
    else Get(ps[1..], name)
  }

  lemma {:induction false} GetAppend(a: Params, b: Params, name: Name)
    ensures Get(a + b, name) == if Get(a, name).Some? then Get(a, name) else Get(b, name)
  {
    if a == [] {
      assert a + b == b;
    } else {
      assert (a + b)[1..] == a[1..] + b;
      GetAppend(a[1..], b, name);
    }
  }

  /** JavaScript truthiness of a parameter: present and not empty. */
  predicate Truthy(v: Option<string>)
  {
    v.Some? && v.value != ""
  }

  // ---------------------------------------------------------------------------
  // Encoding (client service)

  /** `n.toString()` of every element. */
  function Numerals(xs: seq<nat>): (r: seq<string>)
    ensures |r| == |xs|
    ensures forall k :: 0 <= k < |xs| ==> r[k] == NatToDecimal(xs[k])
  {
    seq(|xs|, k requires 0 <= k < |xs| => NatToDecimal(xs[k]))
  }

  /** One conditional `params.append(name, value)`. */
  function AppendIf(ps: Params, present: bool, name: Name, value: string): Params
  {
    if present then ps + [(name, value)] else ps
  }

  /** Reading a name after a conditional append: an earlier value wins;
      otherwise the appended value, if it was appended under that name. */
  lemma GetAppendIf(ps: Params, present: bool, name: Name, value: string, key: Name)
    ensures Get(AppendIf(ps, present, name, value), key) ==
      if Get(ps, key).Some? then Get(ps, key)
      else if present && name == key then Some(value)
      else None
  {
    GetAppend(ps, [(name, value)], key);
  }

  /** The parameters `getProperties(filters, search)` appends, in order:
      `search` when non-empty, then those of the filter record, if any. */
  function EncodeParams(filters: Option<Filters<nat>>, search: string): (r: Params)
    ensures search != "" ==> r != [] && r[0] == (Search, search)
    ensures search == "" && filters.None? ==> r == []
  {
    var ps := AppendIf([], search != "", Search, search);
    if filters.Some? then AppendFilters(ps, filters.value) else ps
  }

  /** The appends for a filter record: the listing type when set, both price
      bounds always, the three lists comma-joined when non-empty, the
      location when set. */
  function AppendFilters(ps: Params, f: Filters<nat>): Params
  {
    var ps1 := AppendIf(ps, f.listingType != "", ListingType, f.listingType);
    var ps2 := AppendIf(ps1, true, MinPrice, NatToDecimal(f.priceRange.min));
    var ps3 := AppendIf(ps2, true, MaxPrice, NatToDecimal(f.priceRange.max));
    AppendLists(ps3, f)
  }

  function AppendLists(ps: Params, f: Filters<nat>): Params
  {
    var ps1 := AppendIf(ps, |f.bedrooms| > 0, Bedrooms, Join(Numerals(f.bedrooms), ','));
    var ps2 := AppendIf(ps1, |f.bathrooms| > 0, Bathrooms, Join(Numerals(f.bathrooms), ','));
    var ps3 := AppendIf(ps2, |f.propertyTypes| > 0, PropertyTypes, Join(Names(f.propertyTypes), ','));
    AppendIf(ps3, f.location != "", Location, f.location)
  }

  /** The value a filter record puts under each name, if any. */
  function FilterValue(f: Filters<nat>, name: Name): Option<string>
  {
    match name
    case Search => None
    case ListingType => if f.listingType != "" then Some(f.listingType) else None
    case MinPrice => Some(NatToDecimal(f.priceRange.min))
    case MaxPrice => Some(NatToDecimal(f.priceRange.max))
    case Bedrooms => if |f.bedrooms| > 0 then Some(Join(Numerals(f.bedrooms), ',')) else None
    case Bathrooms => if |f.bathrooms| > 0 then Some(Join(Numerals(f.bathrooms), ',')) else None
    case PropertyTypes => if |f.propertyTypes| > 0 then Some(Join(Names(f.propertyTypes), ',')) else None
    case Location => if f.location != "" then Some(f.location) else None
  }

  lemma GetAppendFilters(ps: Params, f: Filters<nat>, key: Name)
    requires forall p :: p in ps ==> p.0 == Search
    ensures Get(AppendFilters(ps, f), key) == if key == Search then Get(ps, key) else FilterValue(f, key)
  {
    var ps1 := AppendIf(ps, f.listingType != "", ListingType, f.listingType);
    var ps2 := AppendIf(ps1, true, MinPrice, NatToDecimal(f.priceRange.min));
    var ps3 := AppendIf(ps2, true, MaxPrice, NatToDecimal(f.priceRange.max));
    GetAppendIf(ps, f.listingType != "", ListingType, f.listingType, key);
    GetAppendIf(ps1, true, MinPrice, NatToDecimal(f.priceRange.min), key);
    GetAppendIf(ps2, true, MaxPrice, NatToDecimal(f.priceRange.max), key);
    GetAppendLists(ps3, f, key);
  }

  lemma GetAppendLists(ps: Params, f: Filters<nat>, key: Name)
    requires key in {Bedrooms, Bathrooms, PropertyTypes, Location} ==> Get(ps, key).None?
    ensures Get(AppendLists(ps, f), key) ==
      if key in {Bedrooms, Bathrooms, PropertyTypes, Location} then FilterValue(f, key) else Get(ps, key)
  {
    var ps1 := AppendIf(ps, |f.bedrooms| > 0, Bedrooms, Join(Numerals(f.bedrooms), ','));
    var ps2 := AppendIf(ps1, |f.bathrooms| > 0, Bathrooms, Join(Numerals(f.bathrooms), ','));
    var ps3 := AppendIf(ps2, |f.propertyTypes| > 0, PropertyTypes, Join(Names(f.propertyTypes), ','));
    GetAppendIf(ps, |f.bedrooms| > 0, Bedrooms, Join(Numerals(f.bedrooms), ','), key);
    GetAppendIf(ps1, |f.bathrooms| > 0, Bathrooms, Join(Numerals(f.bathrooms), ','), key);
    GetAppendIf(ps2, |f.propertyTypes| > 0, PropertyTypes, Join(Names(f.propertyTypes), ','), key);
    GetAppendIf(ps3, f.location != "", Location, f.location, key);
  }

  /** Each pair written as `name=value`, in order. */
  function PairTexts(ps: Params): (r: seq<string>)
    ensures |r| == |ps| && forall i :: 0 <= i < |ps| ==> r[i] == ps[i].0.Text() + "=" + ps[i].1
  {
    seq(|ps|, i requires 0 <= i < |ps| => ps[i].0.Text() + "=" + ps[i].1)
  }

  /** `params.toString()` without percent-encoding. */
  function Serialize(ps: Params): (r: string)
    ensures ps != [] ==> ps[0].0.Text() + "=" + ps[0].1 <= r
  {
    Join(PairTexts(ps), '&')
  }

  /** No parameter name contains `&` or `=`. */
  lemma NameIsPlain(n: Name)
    ensures '&' !in n.Text() && '=' !in n.Text()
  {
    match n
    case Search =>
    case ListingType =>
    case MinPrice =>
    case MaxPrice =>
    case Bedrooms =>
    case Bathrooms =>
    case PropertyTypes =>
    case Location =>
  }

  /** A `name=value` piece splits at `=` into its name and its value. */
  lemma PairSplit(n: Name, value: string)
    requires '=' !in value
    ensures Split(n.Text() + "=" + value, '=') == [n.Text(), value]
  {
    var halves := [n.Text(), value];
    NameIsPlain(n);
    assert Join(halves, '=') == n.Text() + "=" + value;
    SplitJoin(halves, '=');
  }

  /** With no `&` in any value, splitting the query string at `&` gives back
      one `name=value` piece per pair, and with no `=` in the values either,
      splitting a piece at `=` gives back its name and its value. */
  lemma SerializeSplit(ps: Params)
    requires ps != []
    requires forall k :: 0 <= k < |ps| ==> '&' !in ps[k].1
    ensures Split(Serialize(ps), '&') == PairTexts(ps)
    ensures (forall k :: 0 <= k < |ps| ==> '=' !in ps[k].1) ==>
              forall k :: 0 <= k < |ps| ==> Split(Split(Serialize(ps), '&')[k], '=') == [ps[k].0.Text(), ps[k].1]
  {
    var pieces := PairTexts(ps);
    forall k | 0 <= k < |pieces|
      ensures '&' !in pieces[k]
    {
      NameIsPlain(ps[k].0);
      assert pieces[k] == ps[k].0.Text() + "=" + ps[k].1;
    }
    SplitJoin(pieces, '&');
    if forall k :: 0 <= k < |ps| ==> '=' !in ps[k].1 {
      forall k | 0 <= k < |ps|
        ensures Split(pieces[k], '=') == [ps[k].0.Text(), ps[k].1]
      {
        PairSplit(ps[k].0, ps[k].1);
      }
    }
  }

  /** Every pair serialises to at least `=`, so only the empty list gives "". */
  lemma SerializeEmpty(ps: Params)
    ensures Serialize(ps) == "" <==> ps == []
  {
    if ps != [] {
      var pairs := PairTexts(ps);
      JoinStartsWith(pairs, '&');
      assert |pairs[0]| >= 1;
    }
  }

  /** The request URL: the query string is attached only when it is not empty. */
  function PropertiesUrl(ps: Params): (url: string)
    ensures url == "/api/properties" <==> ps == []
    ensures ps != [] ==> url == "/api/properties?" + Serialize(ps)
  {
    SerializeEmpty(ps);
    var query := Serialize(ps);
    "/api/properties" + (if query != "" then "?" + query else "")
  }

  /** `getProperties` as written: a fresh parameter list grown by successive
      conditional appends, then the URL. */
  method GetPropertiesUrl(filters: Option<Filters<nat>>, search: string) returns (url: string)
    ensures url == PropertiesUrl(EncodeParams(filters, search))
  {
    var params: Params := [];
    if search != "" {
      params := params + [(Search, search)];
    }
    if filters.Some? {
      var f := filters.value;
      if f.listingType != "" {
        params := params + [(ListingType, f.listingType)];
      }
      params := params + [(MinPrice, NatToDecimal(f.priceRange.min))];
      params := params + [(MaxPrice, NatToDecimal(f.priceRange.max))];
      if |f.bedrooms| > 0 {
        params := params + [(Bedrooms, Join(Numerals(f.bedrooms), ','))];
      }
      if |f.bathrooms| > 0 {
        params := params + [(Bathrooms, Join(Numerals(f.bathrooms), ','))];
      }
      if |f.propertyTypes| > 0 {
        params := params + [(PropertyTypes, Join(Names(f.propertyTypes), ','))];
      }
      if f.location != "" {
        params := params + [(Location, f.location)];
      }
    }
    url := PropertiesUrl(params);
  }

  /** What each parameter name reads back as: `search` only when
      non-empty; with a filter record, the value `FilterValue` gives (both
      price bounds always, the rest only when non-empty); without one,
      nothing but `search`. */
  lemma EncodedParams(filters: Option<Filters<nat>>, search: string, key: Name)
    ensures Get(EncodeParams(filters, search), key) ==
      if key == Search then (if search != "" then Some(search) else None)
      else if filters.Some? then FilterValue(filters.value, key)
      else None
  {
    var ps := AppendIf([], search != "", Search, search);
    GetAppendIf([], search != "", Search, search, key);
    if filters.Some? {
      GetAppendFilters(ps, filters.value, key);
    }
  }

  // ---------------------------------------------------------------------------
  // Decoding (the GET route)

  /** `.filter(type => allowed.includes(type))`: the items that name a
      property type, as property types. */
  function FilterAllowed(xs: seq<string>): (r: seq<PropertyType>)
    ensures forall k :: 0 <= k < |xs| && ParsePropertyType(xs[k]).Some? ==> ParsePropertyType(xs[k]).value in r
    ensures forall t :: t in r ==> t.Name() in xs
  {
    if xs == [] then []
    else
      var rest := FilterAllowed(xs[1..]);
      match ParsePropertyType(xs[0])
      case Some(t) => [t] + rest
      case None => rest
  }

  /** The survivors keep their original order. */
  lemma {:induction false} FilterAllowedOrder(xs: seq<string>)
    ensures IsSubsequence(Names(FilterAllowed(xs)), xs)
  {
    if xs != [] {
      FilterAllowedOrder(xs[1..]);
      var t := ParsePropertyType(xs[0]);
      if t.Some? {
        assert Names(FilterAllowed(xs)) == [xs[0]] + Names(FilterAllowed(xs[1..]));
      } else {
        var r := Names(FilterAllowed(xs));
        assert r != [] ==> r[0] != xs[0];
      }
    }
  }

  /** Property-type names survive the filter unchanged. */
  lemma {:induction false} FilterAllowedNames(ts: seq<PropertyType>)
    ensures FilterAllowed(Names(ts)) == ts
  {
    if ts != [] {
      FilterAllowedNames(ts[1..]);
      assert Names(ts)[1..] == Names(ts[1..]);
    }
  }

  /** `v ? v.split(',').map(Number) : []`. */
  function ParseList(v: Option<string>): (r: seq<Option<nat>>)
    ensures !Truthy(v) ==> r == []
    ensures Truthy(v) ==> |r| == |Split(v.value, ',')|
    ensures Truthy(v) ==> forall k :: 0 <= k < |r| ==> r[k] == ParseNumber(Split(v.value, ',')[k])
  {
    if Truthy(v) then
      var pieces := Split(v.value, ',');
      seq(|pieces|, k requires 0 <= k < |pieces| => ParseNumber(pieces[k]))
    else []
  }

  /** The eight `searchParams.get` calls the route starts with. */
  datatype RawQuery = RawQuery(
    search: Option<string>,
    listingType: Option<string>,
    minPrice: Option<string>,
    maxPrice: Option<string>,
    bedrooms: Option<string>,
    bathrooms: Option<string>,
    propertyTypes: Option<string>,
    location: Option<string>)

  function ReadQuery(ps: Params): RawQuery
  {
    RawQuery(Get(ps, Search), Get(ps, ListingType), Get(ps, MinPrice), Get(ps, MaxPrice),
             Get(ps, Bedrooms), Get(ps, Bathrooms), Get(ps, PropertyTypes), Get(ps, Location))
  }

  /** The filter record the route builds from the values it read. */
  function ParseFilters(q: RawQuery): ParsedFilters
  {
    Filters(
      PriceRange(ParseBound(q.minPrice, DefaultMinPrice), ParseBound(q.maxPrice, DefaultMaxPrice)),
      ParseList(q.bedrooms),
      ParseList(q.bathrooms),
      ParseTypes(q.propertyTypes),
      ParseListingType(q.listingType),
      OrEmpty(q.location))
  }

  /** `get('listingType') || 'sale'`: any non-empty value is taken as it is. */
  function ParseListingType(v: Option<string>): (r: string)
    ensures Truthy(v) ==> r == v.value
    ensures !Truthy(v) ==> r == DefaultListingType
  {
    if Truthy(v) then v.value else DefaultListingType
  }

  /** `v ? parseInt(v) : fallback`: an absent or empty bound is the default;
      text that does not start with a digit is `NaN` (`None`). */
  function ParseBound(v: Option<string>, fallback: nat): (r: Option<nat>)
    ensures !Truthy(v) ==> r == Some(fallback)
    ensures Truthy(v) ==> r == ParseIntPrefix(v.value)
    ensures r.None? <==> Truthy(v) && !IsDigit(v.value[0])
  {
    if Truthy(v) then ParseIntPrefix(v.value) else Some(fallback)
  }

  /** `location || ''`. */
  function OrEmpty(v: Option<string>): (r: string)
    ensures v.None? ==> r == ""
    ensures v.Some? ==> r == v.value
  {
    if Truthy(v) then v.value else ""
  }

  /** `v ? v.split(',').filter(allowed) : []`. */
  function ParseTypes(v: Option<string>): (r: seq<PropertyType>)
    ensures !Truthy(v) ==> r == []
    ensures Truthy(v) ==> forall t :: t in r <==> t.Name() in Split(v.value, ',')
  {
    if Truthy(v) then FilterAllowed(Split(v.value, ',')) else []
  }

  /** Which service call the route makes. */
  datatype Plan = SearchPlan(query: string) | FilterPlan(filters: ParsedFilters)

  /** A non-empty `search` bypasses the filters entirely. */
  function RoutePlan(q: RawQuery): (p: Plan)
    ensures Truthy(q.search) ==> p == SearchPlan(q.search.value)
    ensures !Truthy(q.search) ==> p == FilterPlan(ParseFilters(q))
  {
    if Truthy(q.search) then SearchPlan(q.search.value) else FilterPlan(ParseFilters(q))
  }

  /** The client record as the server sees it when nothing is lost on the way. */
  function Lift(f: Filters<nat>): ParsedFilters
  {
    Filters(
      PriceRange(Some(f.priceRange.min), Some(f.priceRange.max)),
      Somes(f.bedrooms),
      Somes(f.bathrooms),
      f.propertyTypes, f.listingType, f.location)
  }

  /** `Some` of every element. */
  function Somes(xs: seq<nat>): (r: seq<Option<nat>>)
    ensures |r| == |xs| && forall k :: 0 <= k < |xs| ==> r[k] == Some(xs[k])
  {
    seq(|xs|, k requires 0 <= k < |xs| => Some(xs[k]))
  }

  /** A list of numbers as the client encodes it, read back by the route. */
  lemma {:induction false} NumberListRoundTrip(xs: seq<nat>)
    ensures ParseList(if |xs| > 0 then Some(Join(Numerals(xs), ',')) else None) == Somes(xs)
  {
    if |xs| > 0 {
      var ns := Numerals(xs);
      forall k | 0 <= k < |ns|
        ensures ',' !in ns[k]
      {
        assert AllDigits(ns[k]);
      }
      SplitJoin(ns, ',');
      JoinStartsWith(ns, ',');
      forall k | 0 <= k < |xs|
        ensures ParseNumber(ns[k]) == Some(xs[k])
      {
        DecimalRoundTrip(xs[k]);
      }
    }
  }

  /** A list of property types as the client encodes it, read back by the route. */
  lemma TypeListRoundTrip(types: seq<PropertyType>)
    ensures ParseTypes(if |types| > 0 then Some(Join(Names(types), ',')) else None) == types
  {
    if |types| > 0 {
      var names := Names(types);
      var joined := Join(names, ',');
      assert names[0] != "" && names[0] <= joined;
      assert Truthy(Some(joined));
      assert forall k :: 0 <= k < |names| ==> ',' !in names[k];
      SplitJoin(names, ',');
      assert ParseTypes(Some(joined)) == FilterAllowed(Split(joined, ','));
      FilterAllowedNames(types);
    }
  }

  /** A bound as the client prints it, read back by the route. */
  lemma BoundRoundTrip(n: nat, fallback: nat)
    ensures ParseBound(Some(NatToDecimal(n)), fallback) == Some(n)
  {
    ParseIntOfDecimal(n);
  }

  /** Round trip: a client filter record with a listing type and only allowed
      property types, sent without a search term, reaches the server
      unchanged. */
  lemma QueryRoundTrip(f: Filters<nat>)
    requires f.listingType != ""
    ensures RoutePlan(ReadQuery(EncodeParams(Some(f), ""))) == FilterPlan(Lift(f))
  {
    EncodedQuery(f);
    ParseEncoded(f);
  }

  /** The values the route reads for an encoded filter record (no search). */
  function EncodedRaw(f: Filters<nat>): RawQuery
  {
    RawQuery(None, FilterValue(f, ListingType), FilterValue(f, MinPrice), FilterValue(f, MaxPrice),
             FilterValue(f, Bedrooms), FilterValue(f, Bathrooms), FilterValue(f, PropertyTypes),
             FilterValue(f, Location))
  }

  lemma EncodedQuery(f: Filters<nat>)
    ensures ReadQuery(EncodeParams(Some(f), "")) == EncodedRaw(f)
  {
    EncodedParams(Some(f), "", Search);
    EncodedParams(Some(f), "", ListingType);
    EncodedParams(Some(f), "", MinPrice);
    EncodedParams(Some(f), "", MaxPrice);
    EncodedParams(Some(f), "", Bedrooms);
    EncodedParams(Some(f), "", Bathrooms);
    EncodedParams(Some(f), "", PropertyTypes);
    EncodedParams(Some(f), "", Location);
  }

  lemma ParseEncoded(f: Filters<nat>)
    requires f.listingType != ""
    ensures ParseFilters(EncodedRaw(f)) == Lift(f)
  {
    BoundsEncoded(f);
    ListsEncoded(f);
  }

  lemma BoundsEncoded(f: Filters<nat>)
    ensures ParseBound(EncodedRaw(f).minPrice, DefaultMinPrice) == Some(f.priceRange.min)
    ensures ParseBound(EncodedRaw(f).maxPrice, DefaultMaxPrice) == Some(f.priceRange.max)
  {
    BoundRoundTrip(f.priceRange.min, DefaultMinPrice);
    BoundRoundTrip(f.priceRange.max, DefaultMaxPrice);
  }

  lemma ListsEncoded(f: Filters<nat>)
    ensures ParseList(EncodedRaw(f).bedrooms) == Somes(f.bedrooms)
    ensures ParseList(EncodedRaw(f).bathrooms) == Somes(f.bathrooms)
    ensures ParseTypes(EncodedRaw(f).propertyTypes) == f.propertyTypes
  {
    NumberListRoundTrip(f.bedrooms);
    NumberListRoundTrip(f.bathrooms);
    TypeListRoundTrip(f.propertyTypes);
  }

  /** `searchProperties(query)` sends the query alone, and the route takes the
      search branch for it. */
  lemma SearchRoundTrip(query: string)
    requires query != ""
    ensures EncodeParams(None, query) == [(Search, query)]
    ensures RoutePlan(ReadQuery(EncodeParams(None, query))) == SearchPlan(query)
  {
    EncodedParams(None, query, Search);
  }

  // ---------------------------------------------------------------------------
  // fetchApi and the calls built on it

  /** The JSON envelope every API route answers with; a missing `error` is "". */
  datatype Envelope<T> = Envelope(success: bool, data: T, error: string)

  /** What `fetch` and `response.json()` produce: a network failure, or a
      response with its status and its body (`None` when it is not valid JSON). */
  datatype HttpReply<T> =
    | NetworkFailure
    | Response(ok: bool, status: nat, body: Option<Envelope<T>>)

  /** `ApiError`: a message and, for HTTP failures only, the status. */
  datatype ApiError = ApiError(message: string, status: Option<nat>)

  datatype Outcome<T> = Success(value: T) | Failure(error: ApiError)

  const NetworkErrorMessage: string := "Network error or invalid response"

  /** `fetchApi`: a non-OK status fails with that status before the body is
      read; an envelope with `success = false` fails with its error text (or a
      fixed one); every other failure becomes the generic network error. */
  function FetchApi<T>(reply: HttpReply<T>): (r: Outcome<T>)
    ensures r.Success? <==> reply.Response? && reply.ok && reply.body.Some? && reply.body.value.success
    ensures r.Success? ==> r.value == reply.body.value.data
    ensures r.Failure? && r.error.status.Some? <==> reply.Response? && !reply.ok
    ensures reply.Response? && !reply.ok ==>
      r.error == ApiError("HTTP error! status: " + NatToDecimal(reply.status), Some(reply.status))
    ensures reply.Response? && reply.ok && reply.body.Some? && !reply.body.value.success ==>
      r.error == ApiError(OrElse(reply.body.value.error, "API request failed"), None)
    ensures reply.NetworkFailure? || (reply.ok && reply.body.None?) ==>
      r.error == ApiError(NetworkErrorMessage, None)
  {
    match reply
    case NetworkFailure => Failure(ApiError(NetworkErrorMessage, None))
    case Response(ok, status, body) =>
      if !ok then Failure(ApiError("HTTP error! status: " + NatToDecimal(status), Some(status)))
      else if body.None? then Failure(ApiError(NetworkErrorMessage, None))
      else if !body.value.success then Failure(ApiError(OrElse(body.value.error, "API request failed"), None))
      else Success(body.value.data)
  }

  /** `getPropertyById`: a 404 becomes `null`; every other error propagates. */
  function GetPropertyById<T>(reply: HttpReply<T>): (r: Outcome<Option<T>>)
    ensures reply.Response? && !reply.ok && reply.status == 404 ==> r == Success(None)
    ensures FetchApi(reply).Success? ==> r == Success(Some(FetchApi(reply).value))
    ensures FetchApi(reply).Failure? && FetchApi(reply).error.status != Some(404) ==>
      r == Failure(FetchApi(reply).error)
  {
    match FetchApi(reply)
    case Success(p) => Success(Some(p))
    case Failure(e) => if e.status == Some(404) then Success(None) else Failure(e)
  }

  /** `getFeaturedProperties(limit)`: the first `min(limit, n)` properties, in order. */
  function FeaturedSlice<T>(all: seq<T>, limit: nat): (r: seq<T>)
    ensures r <= all
    ensures |r| == if limit < |all| then limit else |all|
  {
    if limit < |all| then all[..limit] else all
  }

  const DefaultFeaturedLimit: nat := 6
}
