/** Creating a listing: the `POST` handler of the properties route. It checks
    the session cookie and the user, rejects a body with a falsy required
    field, derives a URL slug from the title, and stores the record and one
    image row per submitted URL. Token verification, the user lookup and the
    clock are inputs. */
module ListingCreate {
  import opened Util
  import PropertyStore

  // ---------------------------------------------------------------------------
  // The URL slug

  /** JavaScript's `\s`: the ASCII white space, no-break space, the Unicode
      space separators, the line and paragraph separators and the BOM. */
  predicate IsSpace(c: char)
  {
    || c == ' ' || c == '\t' || c == '\n' || c == '\r' || c == '\U{000B}' || c == '\U{000C}'
    || c == '\U{00A0}' || c == '\U{1680}' || ('\U{2000}' <= c <= '\U{200A}')
    || c == '\U{2028}' || c == '\U{2029}' || c == '\U{202F}' || c == '\U{205F}'
    || c == '\U{3000}' || c == '\U{FEFF}'
  }

  predicate IsAlnum(c: char) { ('a' <= c <= 'z') || IsDigit(c) }

  /** The characters a finished slug may contain: `[a-z0-9-]`. */
  predicate IsSlugChar(c: char) { IsAlnum(c) || c == '-' }

  predicate NoSpaces(s: string) { forall i :: 0 <= i < |s| ==> !IsSpace(s[i]) }

  predicate NoDoubleDash(s: string)
  {
    forall i :: 0 <= i < |s| - 1 ==> !(s[i] == '-' && s[i + 1] == '-')
  }

  /** The letters and digits of a text, in order. */
  function AlnumOf(s: string): string
  {
    if s == [] then [] else (if IsAlnum(s[0]) then [s[0]] else []) + AlnumOf(s[1..])
  }

  /** `replace(/[^a-z0-9\s-]/g, '')`: every slug character and every white
      space character is kept, in order and as often as it occurs; everything
      else is deleted. */
  function KeepSlugChars(s: string): (r: string)
    ensures forall c :: c in r ==> IsSlugChar(c) || IsSpace(c)
    ensures IsSubsequence(r, s)
    ensures AlnumOf(r) == AlnumOf(s)
    ensures (forall c :: c in s ==> IsSlugChar(c) || IsSpace(c)) ==> r == s
  {
    if s == [] then []
    else
      var rest := KeepSlugChars(s[1..]);
      if IsSlugChar(s[0]) || IsSpace(s[0]) then
        assert ([s[0]] + rest)[1..] == rest;
        [s[0]] + rest
      else
        assert rest != [] ==> rest[0] != s[0];
        rest
  }

  /** The filter keeps every slug and white space character as often as it
      occurs and drops every other character. */
  lemma {:induction false} KeepSlugCharsCounts(s: string, c: char)
    ensures multiset(KeepSlugChars(s))[c] == if IsSlugChar(c) || IsSpace(c) then multiset(s)[c] else 0
  {
    if s != [] {
      assert s == [s[0]] + s[1..];
      KeepSlugCharsCounts(s[1..], c);
      if IsSlugChar(s[0]) || IsSpace(s[0]) {
        assert KeepSlugChars(s) == [s[0]] + KeepSlugChars(s[1..]);
      }
    }
  }

  /** `trimStart()`: leading white space removed, the rest kept. */
  function TrimStart(s: string): (r: string)
    ensures |r| <= |s| && r == s[|s| - |r|..]
    ensures forall i :: 0 <= i < |s| - |r| ==> IsSpace(s[i])
    ensures r == [] || !IsSpace(r[0])
    ensures NoSpaces(s) ==> r == s
  {
    if s != [] && IsSpace(s[0]) then TrimStart(s[1..]) else s
  }

  /** Trimming the start keeps every character but white space as often as
      it occurs. */
  lemma {:induction false} TrimStartCounts(s: string, c: char)
    requires !IsSpace(c)
    ensures multiset(TrimStart(s))[c] == multiset(s)[c]
  {
    if s != [] && IsSpace(s[0]) {
      assert s == [s[0]] + s[1..];
      TrimStartCounts(s[1..], c);
    }
  }

  /** Leading white space followed by text that does not start with white
      space is cut exactly. */
  lemma {:induction false} TrimStartSpaces(sp: string, rest: string)
    requires forall i :: 0 <= i < |sp| ==> IsSpace(sp[i])
    requires rest == [] || !IsSpace(rest[0])
    ensures TrimStart(sp + rest) == rest
    decreases |sp|
  {
    if sp == [] {
      assert sp + rest == rest;
    } else {
      assert (sp + rest)[1..] == sp[1..] + rest;
      TrimStartSpaces(sp[1..], rest);
    }
  }

  /** `trimEnd()`: trailing white space removed, the rest kept. */
  function TrimEnd(s: string): (r: string)
    ensures |r| <= |s| && r == s[..|r|]
    ensures forall i :: |r| <= i < |s| ==> IsSpace(s[i])
    ensures r == [] || !IsSpace(r[|r| - 1])
    ensures NoSpaces(s) ==> r == s
  {
    if s != [] && IsSpace(s[|s| - 1]) then TrimEnd(s[..|s| - 1]) else s
  }

  /** `replace(/\s+/g, '-')`: each run of white space becomes one dash
      (DashSpacesRun): white space followed by more white space is dropped,
      and the last of a run turns into the dash. */
  function DashSpaces(s: string): (r: string)
    ensures NoSpaces(r)
    ensures NoSpaces(s) ==> r == s
  {
    if s == [] then []
    else if IsSpace(s[0]) && |s| > 1 && IsSpace(s[1]) then DashSpaces(s[1..])
    else if IsSpace(s[0]) then "-" + DashSpaces(s[1..])
    else [s[0]] + DashSpaces(s[1..])
  }

  /** Turning white space into dashes brings in no character but the dash. */
  lemma {:induction false} DashSpacesChars(s: string)
    ensures forall c :: c in DashSpaces(s) ==> c == '-' || c in s
  {
    if s != [] {
      DashSpacesChars(s[1..]);
    }
  }

  /** Turning white space into dashes keeps every other character but the
      dash as often as it occurs. */
  lemma {:induction false} DashSpacesCounts(s: string, c: char)
    requires !IsSpace(c) && c != '-'
    ensures multiset(DashSpaces(s))[c] == multiset(s)[c]
  {
    if s != [] {
      assert s == [s[0]] + s[1..];
      DashSpacesCounts(s[1..], c);
      if !IsSpace(s[0]) {
        assert multiset(DashSpaces(s)) == multiset([s[0]]) + multiset(DashSpaces(s[1..]));
      } else if !(|s| > 1 && IsSpace(s[1])) {
        assert multiset(DashSpaces(s)) == multiset("-") + multiset(DashSpaces(s[1..]));
      }
    }
  }

  /** Appending after a non-empty text is appending after its tail. */
  lemma ConsAppend(w: string, c: string)
    requires w != []
    ensures w + c == [w[0]] + (w[1..] + c)
  {
    assert w == [w[0]] + w[1..];
  }

  /** Text without white space passes through unchanged in front of any rest. */
  lemma {:induction false} DashSpacesPrefix(w: string, t: string)
    requires NoSpaces(w)
    ensures DashSpaces(w + t) == w + DashSpaces(t)
    decreases |w|
  {
    if w == [] {
      assert w + t == t;
    } else {
      var s := w + t;
      assert s[0] == w[0] && !IsSpace(w[0]);
      assert s[1..] == w[1..] + t;
      assert DashSpaces(s) == [w[0]] + DashSpaces(w[1..] + t);
      assert NoSpaces(w[1..]) by {
        forall i | 0 <= i < |w[1..]| ensures !IsSpace(w[1..][i]) {
          assert w[1..][i] == w[i + 1];
        }
      }
      DashSpacesPrefix(w[1..], t);
      ConsAppend(w, DashSpaces(t));
    }
  }

  /** A run of white space at the start becomes one dash. */
  lemma {:induction false} DashSpacesRunStart(sp: string, rest: string)
    requires sp != [] && forall i :: 0 <= i < |sp| ==> IsSpace(sp[i])
    requires rest == [] || !IsSpace(rest[0])
    ensures DashSpaces(sp + rest) == "-" + DashSpaces(rest)
    decreases |sp|
  {
    var s := sp + rest;
    assert s[0] == sp[0] && IsSpace(s[0]);
    if |sp| == 1 {
      assert s[1..] == rest;
    } else {
      assert s[1] == sp[1] && IsSpace(s[1]);
      assert s[1..] == sp[1..] + rest;
      DashSpacesRunStart(sp[1..], rest);
    }
  }

  /** A run of white space between text without white space and text that
      does not start with white space turns into exactly one dash. */
  lemma DashSpacesRun(w: string, sp: string, rest: string)
    requires NoSpaces(w)
    requires sp != [] && forall i :: 0 <= i < |sp| ==> IsSpace(sp[i])
    requires rest == [] || !IsSpace(rest[0])
    ensures DashSpaces(w + sp + rest) == w + "-" + DashSpaces(rest)
  {
    assert w + sp + rest == w + (sp + rest);
    DashSpacesPrefix(w, sp + rest);
    DashSpacesRunStart(sp, rest);
  }

  /** Turning white space into dashes keeps every letter and digit. */
  lemma {:induction false} DashSpacesAlnum(s: string)
    ensures AlnumOf(DashSpaces(s)) == AlnumOf(s)
  {
    if s != [] {
      var rest := DashSpaces(s[1..]);
      DashSpacesAlnum(s[1..]);
      if IsSpace(s[0]) {
        assert !IsAlnum(s[0]);
        assert ("-" + rest)[1..] == rest;
      } else {
        assert ([s[0]] + rest)[1..] == rest;
      }
    }
  }

  /** `replace(/-+/g, '-')`: each run of dashes becomes one dash
      (CollapseDashesRun); every other character is kept as often as it occurs. */
  function CollapseDashes(s: string): (r: string)
    ensures NoDoubleDash(r)
    ensures forall c :: c in r ==> c in s
    ensures |s| > 0 ==> |r| > 0 && r[0] == s[0]
    ensures AlnumOf(r) == AlnumOf(s)
    ensures NoDoubleDash(s) ==> r == s
  {
    if |s| <= 1 then s
    else if s[0] == '-' && s[1] == '-' then CollapseDashes(s[1..])
    else [s[0]] + CollapseDashes(s[1..])
  }

  /** Collapsing dashes keeps every other character as often as it occurs. */
  lemma {:induction false} CollapseDashesCounts(s: string, c: char)
    requires c != '-'
    ensures multiset(CollapseDashes(s))[c] == multiset(s)[c]
  {
    if |s| > 1 {
      assert s == [s[0]] + s[1..];
      CollapseDashesCounts(s[1..], c);
      if !(s[0] == '-' && s[1] == '-') {
        assert multiset(CollapseDashes(s)) == multiset([s[0]]) + multiset(CollapseDashes(s[1..]));
      }
    }
  }

  /** Text without a double dash that does not end in a dash passes through
      unchanged in front of any rest. */
  lemma {:induction false} CollapseDashesPrefix(w: string, t: string)
    requires NoDoubleDash(w) && (w == [] || w[|w| - 1] != '-')
    ensures CollapseDashes(w + t) == w + CollapseDashes(t)
    decreases |w|
  {
    var s := w + t;
    if w == [] {
      assert s == t;
    } else if |w| == 1 {
      assert w[0] != '-';
      if t == [] {
        assert s == w && w + CollapseDashes(t) == w;
      } else {
        assert s[0] == w[0] && s[1..] == t;
        assert CollapseDashes(s) == [w[0]] + CollapseDashes(t);
      }
    } else {
      assert s[0] == w[0] && s[1] == w[1];
      assert !(w[0] == '-' && w[1] == '-');
      assert s[1..] == w[1..] + t;
      assert NoDoubleDash(w[1..]) by {
        forall i | 0 <= i < |w[1..]| - 1 ensures !(w[1..][i] == '-' && w[1..][i + 1] == '-') {
          assert w[1..][i] == w[i + 1] && w[1..][i + 1] == w[i + 2];
        }
      }
      assert w[1..][|w[1..]| - 1] == w[|w| - 1];
      CollapseDashesPrefix(w[1..], t);
      assert CollapseDashes(s) == [w[0]] + CollapseDashes(w[1..] + t);
      ConsAppend(w, CollapseDashes(t));
    }
  }

  /** A run of dashes at the start becomes one dash. */
  lemma {:induction false} CollapseDashesRunStart(d: string, rest: string)
    requires d != [] && forall i :: 0 <= i < |d| ==> d[i] == '-'
    requires rest == [] || rest[0] != '-'
    ensures CollapseDashes(d + rest) == "-" + CollapseDashes(rest)
    decreases |d|
  {
    var s := d + rest;
    if |d| == 1 {
      assert s == "-" + rest;
      if rest != [] {
        assert s[1] == rest[0] && s[1..] == rest;
      }
    } else {
      assert s[0] == '-' && s[1] == '-';
      assert s[1..] == d[1..] + rest;
      CollapseDashesRunStart(d[1..], rest);
    }
  }

  /** A run of dashes after text without a double dash and not ending in a
      dash, and before text that does not start with a dash, turns into
      exactly one dash. */
  lemma CollapseDashesRun(w: string, d: string, rest: string)
    requires NoDoubleDash(w) && (w == [] || w[|w| - 1] != '-')
    requires d != [] && forall i :: 0 <= i < |d| ==> d[i] == '-'
    requires rest == [] || rest[0] != '-'
    ensures CollapseDashes(w + d + rest) == w + "-" + CollapseDashes(rest)
  {
    assert w + d + rest == w + (d + rest);
    CollapseDashesPrefix(w, d + rest);
    CollapseDashesRunStart(d, rest);
  }

  /** `r` is `s` with the first `k` characters and everything after `k + |r|`
      cut, all of them white space. */
  predicate TrimmedAt(s: string, r: string, k: nat)
  {
    && k + |r| <= |s| && r == s[k..k + |r|]
    && (forall i :: 0 <= i < k ==> IsSpace(s[i]))
    && (forall i :: k + |r| <= i < |s| ==> IsSpace(s[i]))
  }

  /** `trim()`: the input with the white space at both ends cut and nothing
      else changed; a string without white space is unchanged. */
  function Trim(s: string): (r: string)
    ensures exists k :: TrimmedAt(s, r, k)
    ensures r == [] || (!IsSpace(r[0]) && !IsSpace(r[|r| - 1]))
    ensures NoSpaces(s) ==> r == s
  {
    var t := TrimStart(s);
    var r := TrimEnd(t);
    var k := |s| - |t|;
    assert r == s[k..k + |r|];
    assert TrimmedAt(s, r, k);
    r
  }

  /** The title part of the slug: lower-cased, stripped of everything but
      letters, digits, white space and dashes, white space runs turned into a
      dash, dash runs collapsed, trimmed. */
  function TitleSlug(title: string): (r: string)
    ensures forall c :: c in r ==> IsSlugChar(c)
    ensures NoDoubleDash(r)
    ensures AlnumOf(r) == AlnumOf(Lower(title))
  {
    var kept := KeepSlugChars(Lower(title));
    DashSpacesAlnum(kept);
    var collapsed := CollapseDashes(DashSpaces(kept));
    DashedSlugChars(kept);
    Trim(collapsed)
  }

  /** After the character filter, turning white space into dashes and
      collapsing dashes leaves only slug characters, hence no white space. */
  lemma DashedSlugChars(kept: string)
    requires forall c :: c in kept ==> IsSlugChar(c) || IsSpace(c)
    ensures forall c :: c in CollapseDashes(DashSpaces(kept)) ==> IsSlugChar(c)
    ensures NoSpaces(CollapseDashes(DashSpaces(kept)))
  {
    var dashed := DashSpaces(kept);
    var collapsed := CollapseDashes(dashed);
    DashSpacesChars(kept);
    forall c | c in collapsed ensures IsSlugChar(c) {
      assert c in dashed;
      assert !IsSpace(c);
    }
    forall i | 0 <= i < |collapsed| ensures !IsSpace(collapsed[i]) {
      assert collapsed[i] in collapsed;
      assert IsSlugChar(collapsed[i]);
    }
  }

  /** Lower-case letters and digits only. */
  predicate IsWord(s: string) { forall i :: 0 <= i < |s| ==> IsAlnum(s[i]) }

  /** Lower-casing leaves white space alone, so it works piece by piece
      around a run of white space. */
  lemma LowerAround(a: string, sp: string, b: string)
    requires forall i :: 0 <= i < |sp| ==> IsSpace(sp[i])
    ensures Lower(a + sp + b) == Lower(a) + sp + Lower(b)
  {
    var t := Lower(a) + sp + Lower(b);
    forall i | 0 <= i < |t| ensures Lower(a + sp + b)[i] == t[i] {
      if |a| <= i < |a| + |sp| {
        assert IsSpace(sp[i - |a|]);
      }
    }
  }

  /** Two words around white space are kept whole by the character filter. */
  lemma KeepWordsAround(la: string, sp: string, lb: string)
    requires IsWord(la) && IsWord(lb)
    requires forall i :: 0 <= i < |sp| ==> IsSpace(sp[i])
    ensures KeepSlugChars(la + sp + lb) == la + sp + lb
  {
    var t := la + sp + lb;
    forall c | c in t ensures IsSlugChar(c) || IsSpace(c) {
      var i :| 0 <= i < |t| && t[i] == c;
      if i < |la| {
        assert IsAlnum(la[i]);
      } else if i < |la| + |sp| {
        assert IsSpace(sp[i - |la|]);
      } else {
        assert IsAlnum(lb[i - |la| - |sp|]);
      }
    }
  }

  /** A word holds no white space. */
  lemma WordNoSpaces(w: string)
    requires IsWord(w)
    ensures NoSpaces(w)
  {
    forall i | 0 <= i < |w| ensures !IsSpace(w[i]) {
      assert IsAlnum(w[i]);
    }
  }

  /** Two words joined by one dash hold no white space and no double dash. */
  lemma DashedWordsClean(la: string, lb: string)
    requires IsWord(la) && IsWord(lb)
    ensures NoSpaces(la + "-" + lb) && NoDoubleDash(la + "-" + lb)
  {
    var u := la + "-" + lb;
    assert forall i :: 0 <= i < |u| ==> IsSlugChar(u[i]) && (u[i] == '-' <==> i == |la|) by {
      forall i | 0 <= i < |u| ensures IsSlugChar(u[i]) && (u[i] == '-' <==> i == |la|) {
        if i < |la| {
          assert IsAlnum(la[i]);
        } else if i > |la| {
          assert u[i] == lb[i - |la| - 1] && IsAlnum(lb[i - |la| - 1]);
        }
      }
    }
  }

  /** Two words separated by white space become the lower-cased words joined
      by one dash: "Hello World" gives "hello-world". */
  lemma TitleSlugWords(a: string, sp: string, b: string)
    requires IsWord(Lower(a)) && IsWord(Lower(b))
    requires sp != [] && forall i :: 0 <= i < |sp| ==> IsSpace(sp[i])
    ensures TitleSlug(a + sp + b) == Lower(a) + "-" + Lower(b)
  {
    var la, lb := Lower(a), Lower(b);
    LowerAround(a, sp, b);
    KeepWordsAround(la, sp, lb);
    WordNoSpaces(la);
    WordNoSpaces(lb);
    DashSpacesRun(la, sp, lb);
    DashedWordsClean(la, lb);
  }

  /** The stored slug: the title part, a dash and the creation time in
      milliseconds. */
  function Slug(title: string, now: nat): (r: string)
    ensures TitleSlug(title) + "-" <= r
    ensures forall c :: c in r ==> IsSlugChar(c)
    ensures AllDigits(r[|TitleSlug(title)| + 1..]) && ParseIntPrefix(r[|TitleSlug(title)| + 1..]) == Some(now)
    ensures r[|TitleSlug(title)| + 1..] == NatToDecimal(now)
  {
    var t := TitleSlug(title);
    var stamp := NatToDecimal(now);
    var r := t + "-" + stamp;
    assert r[|t| + 1..] == stamp;
    ParseIntOfDecimal(now);
    assert forall c :: c in r ==> c in t || c == '-' || c in stamp;
    r
  }

  /** Text already made of `[a-z0-9-]` without a double dash passes through
      the pipeline unchanged. */
  lemma SlugFixedPoint(u: string)
    requires forall c :: c in u ==> IsSlugChar(c)
    requires NoDoubleDash(u)
    ensures TitleSlug(u) == u
  {
    assert Lower(u) == u by {
      forall i | 0 <= i < |u| ensures Lower(u)[i] == u[i] {
        assert IsSlugChar(u[i]);
      }
    }
    assert NoSpaces(u) by {
      forall i | 0 <= i < |u| ensures !IsSpace(u[i]) {
        assert IsSlugChar(u[i]);
      }
    }
    assert KeepSlugChars(u) == u;
    assert DashSpaces(u) == u;
    assert CollapseDashes(u) == u;
  }

  /** A slug title is its own slug: the pipeline is idempotent. */
  lemma TitleSlugIdempotent(title: string)
    ensures TitleSlug(TitleSlug(title)) == TitleSlug(title)
  {
    SlugFixedPoint(TitleSlug(title));
  }

  // ---------------------------------------------------------------------------
  // The request

  /** A value of the JSON body, as far as the handler looks at it. */
  datatype Json = Missing | Text(text: string) | Number(n: nat)

  /** JavaScript truthiness: absent, `""` and `0` are falsy. */
  predicate IsTruthy(v: Json)
  {
    (v.Text? && v.text != "") || (v.Number? && v.n != 0)
  }

  /** `parseInt` (and `parseFloat`) of a value: a number is taken as it is,
      text by its leading digits; anything else is `NaN`. */
  datatype Num = Null | Int(value: nat) | NaN

  function ParseNum(v: Json): (r: Num)
    ensures r != Null
    ensures v.Number? ==> r == Int(v.n)
  {
    match v
    case Number(n) => Int(n)
    case Text(s) => if ParseIntPrefix(s).Some? then Int(ParseIntPrefix(s).value) else NaN
    case Missing => NaN
  }

  /** `v ? parseInt(v) : null`. */
  function ParseOptional(v: Json): (r: Num)
    ensures !IsTruthy(v) <==> r == Null
  {
    if IsTruthy(v) then ParseNum(v) else Null
  }

  datatype Body = Body(
    title: Json,
    description: Json,
    price: Json,
    bedrooms: Json,
    bathrooms: Json,
    squareFootage: Json,
    propertyType: Json,
    listingType: Json,
    address: Json,
    city: Json,
    state: Json,
    zipCode: Json,
    yearBuilt: Json,
    lotSize: Json,
    parkingSpaces: Json,
    features: Option<seq<string>>,
    images: Option<seq<string>>)

  /** The twelve fields the handler requires, every one truthy. */
  predicate HasRequired(b: Body)
  {
    && IsTruthy(b.title) && IsTruthy(b.description) && IsTruthy(b.price)
    && IsTruthy(b.bedrooms) && IsTruthy(b.bathrooms) && IsTruthy(b.squareFootage)
    && IsTruthy(b.propertyType) && IsTruthy(b.listingType) && IsTruthy(b.address)
    && IsTruthy(b.city) && IsTruthy(b.state) && IsTruthy(b.zipCode)
  }

  /** The property record handed to `prisma.property.create`. */
  datatype NewListing = NewListing(
    title: string,
    description: Json,
    slug: string,
    price: Num,
    bedrooms: Num,
    bathrooms: Num,
    squareFootage: Num,
    propertyType: string,
    listingType: string,
    address: Json,
    city: Json,
    state: Json,
    zipCode: Json,
    yearBuilt: Num,
    lotSize: Num,
    parkingSpaces: Num,
    features: Option<seq<string>>,
    ownerId: string,
    agentId: Option<string>,
    status: string)

  /** What the handler answers. `ServerError` is the 500 of its catch: a
      token that does not verify, or a title or type that is not text. */
  datatype CreateResult =
    | Unauthorized
    | ServerError
    | UserNotFound
    | MissingFields
    | Created(listing: NewListing, images: seq<PropertyStore.ImageRow>)
  {
    function Status(): nat
    {
      match this
      case Unauthorized => 401
      case ServerError => 500
      case UserNotFound => 404
      case MissingFields => 400
      case Created(_, _) => 200
    }
  }

  /** The image rows: the i-th submitted URL with `order = i`. */
  function ImageRows(urls: seq<string>): (r: seq<PropertyStore.ImageRow>)
    ensures |r| == |urls|
    ensures forall i :: 0 <= i < |urls| ==> r[i] == PropertyStore.ImageRow(urls[i], i)
  {
    seq(|urls|, i requires 0 <= i < |urls| => PropertyStore.ImageRow(urls[i], i))
  }

  /** `features && features.length > 0 ? JSON.stringify(features) : null`. */
  function StoredFeatures(features: Option<seq<string>>): (r: Option<seq<string>>)
    ensures r.Some? <==> features.Some? && |features.value| > 0
    ensures r.Some? ==> r == features
  {
    if features.Some? && |features.value| > 0 then features else None
  }

  /** The `POST` handler. `token` is the cookie, `tokenValid` whether it
      verifies, `user` the agent id of the user it names (`None` when no such
      user exists, `Some(None)` for a user without an agent profile). */
  function CreateListing(token: Option<string>, tokenValid: bool, userId: string,
                         user: Option<Option<string>>, body: Body, now: nat): (r: CreateResult)
    ensures r == Unauthorized <==> token.None? || token.value == ""
    ensures r == UserNotFound <==> token.Some? && token.value != "" && tokenValid && user.None?
    ensures r == ServerError <==>
              token.Some? && token.value != "" &&
              (!tokenValid ||
               (user.Some? && HasRequired(body) &&
                !(body.title.Text? && body.propertyType.Text? && body.listingType.Text?)))
    ensures r == MissingFields <==>
              token.Some? && token.value != "" && tokenValid && user.Some? && !HasRequired(body)
    ensures r.Created? <==> token.Some? && token.value != "" && tokenValid && user.Some? && HasRequired(body)
                            && body.title.Text? && body.propertyType.Text? && body.listingType.Text?
    ensures r.Created? ==>
              && r.listing.title == body.title.text
              && r.listing.description == body.description
              && r.listing.slug == Slug(body.title.text, now)
              && r.listing.price == ParseNum(body.price) && r.listing.bedrooms == ParseNum(body.bedrooms)
              && r.listing.bathrooms == ParseNum(body.bathrooms)
              && r.listing.squareFootage == ParseNum(body.squareFootage)
              && r.listing.address == body.address && r.listing.city == body.city
              && r.listing.state == body.state && r.listing.zipCode == body.zipCode
              && r.listing.propertyType == Upper(body.propertyType.text)
              && r.listing.listingType == Upper(body.listingType.text)
              && r.listing.status == PropertyStore.Active
              && r.listing.ownerId == userId
              && r.listing.agentId == user.value
              && r.listing.features == StoredFeatures(body.features)
              && r.listing.yearBuilt == ParseOptional(body.yearBuilt)
              && r.listing.lotSize == ParseOptional(body.lotSize)
              && r.listing.parkingSpaces == ParseOptional(body.parkingSpaces)
              && r.images == (if body.images.Some? then ImageRows(body.images.value) else [])
  {
    if token.None? || token.value == "" then Unauthorized
    else if !tokenValid then ServerError
    else if user.None? then UserNotFound
    else if !HasRequired(body) then MissingFields
    else if !body.title.Text? || !body.propertyType.Text? || !body.listingType.Text? then ServerError
    else
      var listing := NewListing(
        body.title.text, body.description, Slug(body.title.text, now),
        ParseNum(body.price), ParseNum(body.bedrooms), ParseNum(body.bathrooms), ParseNum(body.squareFootage),
        Upper(body.propertyType.text), Upper(body.listingType.text),
        body.address, body.city, body.state, body.zipCode,
        ParseOptional(body.yearBuilt), ParseOptional(body.lotSize), ParseOptional(body.parkingSpaces),
        StoredFeatures(body.features), userId, user.value, PropertyStore.Active);
      Created(listing, if body.images.Some? then ImageRows(body.images.value) else [])
  }

  /** A price (or bedroom count) of 0 is falsy and so rejected as missing. */
  lemma ZeroPriceRejected(userId: string, agent: Option<string>, body: Body, now: nat)
    requires body.price == Number(0) || body.bedrooms == Number(0)
    ensures CreateListing(Some("t"), true, userId, Some(agent), body, now) == MissingFields
  {
  }

  /** Stored image rows come back from the property conversion in the order
      they were submitted. */
  lemma {:induction false} ImagesKeepSubmittedOrder(urls: seq<string>)
    ensures PropertyStore.Urls(PropertyStore.SortByOrder(ImageRows(urls))) == urls
  {
    var rows := ImageRows(urls);
    assert PropertyStore.SortedByOrder(rows);
    PropertyStore.SortSortedUnchanged(rows);
  }
}
