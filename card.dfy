/** The property card (the current component and the older one): the
    image carousel's wrap-around index, the price text, and the favourite
    button. Locale number formatting is a function parameter. */
module PropertyCard {
  import AuthGuard

  // ---------------------------------------------------------------------------
  // The carousel

  /** `prev === n - 1 ? 0 : prev + 1`. */
  function NextImage(i: int, n: int): (r: int)
    ensures 0 <= i < n ==> 0 <= r < n
    ensures 0 <= i < n ==> (r == 0 <==> i == n - 1)
  {
    if i == n - 1 then 0 else i + 1
  }

  /** `prev === 0 ? n - 1 : prev - 1`. */
  function PrevImage(i: int, n: int): (r: int)
    ensures 0 <= i < n ==> 0 <= r < n
    ensures 0 <= i < n ==> (r == n - 1 <==> i == 0)
  {
    if i == 0 then n - 1 else i - 1
  }

  /** Next and previous undo each other on the image range. */
  lemma NextPrevInverse(i: int, n: int)
    requires 0 <= i < n
    ensures PrevImage(NextImage(i, n), n) == i
    ensures NextImage(PrevImage(i, n), n) == i
  {
  }

  /** `k` presses of the next button. */
  function NextTimes(i: int, n: int, k: nat): (r: int)
    ensures 0 <= i < n ==> 0 <= r < n
  {
    if k == 0 then i else NextImage(NextTimes(i, n, k - 1), n)
  }

  /** Pressing `a` times and then `b` times is pressing `a + b` times. */
  lemma {:induction false} NextTimesAdd(i: int, n: int, a: nat, b: nat)
    ensures NextTimes(i, n, a + b) == NextTimes(NextTimes(i, n, a), n, b)
  {
    if b > 0 {
      NextTimesAdd(i, n, a, b - 1);
    }
  }

  /** Short of the last image, `k` presses move the index `k` places. */
  lemma {:induction false} NextTimesBelow(i: int, n: int, k: nat)
    requires 0 <= i && i + k < n
    ensures NextTimes(i, n, k) == i + k
  {
    if k > 0 {
      NextTimesBelow(i, n, k - 1);
    }
  }

  /** One press for every image brings the carousel back where it was. */
  lemma FullCircle(i: int, n: int)
    requires 0 <= i < n
    ensures NextTimes(i, n, n) == i
  {
    var toLast := n - 1 - i;
    NextTimesBelow(i, n, toLast);
    NextTimesAdd(i, n, toLast, 1);
    assert NextTimes(i, n, toLast + 1) == 0;
    NextTimesAdd(i, n, toLast + 1, i);
    NextTimesBelow(0, n, i);
  }

  // ---------------------------------------------------------------------------
  // The price text

  /** `formatPrice` of the current card: the currency sign, the formatted
      number, and the per-month suffix for rentals. */
  function FormatPrice(price: nat, listingType: string, currency: string, perMonth: string,
                       format: nat -> string): (s: string)
    ensures currency + format(price) <= s
    ensures listingType != "rent" ==> s == currency + format(price)
  {
    if listingType == "rent" then currency + format(price) + perMonth else currency + format(price)
  }

  /** The rent text is the sale text followed by the per-month suffix. */
  lemma RentPriceIsSalePlusSuffix(price: nat, currency: string, perMonth: string, format: nat -> string)
    ensures FormatPrice(price, "rent", currency, perMonth, format)
         == FormatPrice(price, "sale", currency, perMonth, format) + perMonth
  {
  }

  /** `formatPrice` of the older card: `$`, the number, and `/mo` for rentals. */
  function FormatPriceDollars(price: nat, listingType: string, format: nat -> string): (s: string)
    ensures "$" + format(price) <= s
    ensures listingType == "rent" <==> s == "$" + format(price) + "/mo"
    ensures listingType != "rent" ==> s == "$" + format(price)
  {
    if listingType == "rent" then "$" + format(price) + "/mo" else "$" + format(price)
  }

  // ---------------------------------------------------------------------------
  // The favourite button

  /** The older card: `onFavorite(property.id)` on every click. */
  function FavoriteClickDirect(id: string): (calls: seq<string>)
    ensures calls == [id]
  {
    [id]
  }

  /** The current card, as written: `requireAuth()` with no callback, the
      guard's `onSuccess` being `onFavorite(property.id)`. Returns the ids
      handed to `onFavorite` by the click. */
  method FavoriteClick(guard: AuthGuard.Guard, isAuthenticated: bool, id: string)
    returns (calls: seq<string>)
    modifies guard
    ensures calls == []
    ensures isAuthenticated ==> guard.showAuthModal == old(guard.showAuthModal)
    ensures !isAuthenticated ==> guard.showAuthModal
  {
    var _ := guard.RequireAuth(isAuthenticated, false);
    calls := [];
  }

  /** The current card, corrected: the click passes `onFavorite` to
      `requireAuth`, so a signed-in user's click favourites at once. */
  method FavoriteClickGated(guard: AuthGuard.Guard, isAuthenticated: bool, id: string)
    returns (calls: seq<string>)
    modifies guard
    ensures isAuthenticated ==> calls == [id] && guard.showAuthModal == old(guard.showAuthModal)
    ensures !isAuthenticated ==> calls == [] && guard.showAuthModal
  {
    var called := guard.RequireAuth(isAuthenticated, true);
    calls := if called then [id] else [];
  }

  /** Signing in from the modal the click opened: `onFavorite(property.id)`
      runs once. */
  method SignInFromCard(guard: AuthGuard.Guard, id: string) returns (calls: seq<string>)
    requires guard.hasOnSuccess
    modifies guard
    ensures calls == [id] && !guard.showAuthModal
  {
    var called := guard.HandleAuthSuccess();
    calls := if called then [id] else [];
  }

  /** The discrepancy: a signed-in user's click on the current card never
      reaches `onFavorite`, while the older card and the corrected click
      both favourite the property. */
  method SignedInFavoriteIsLost(id: string)
  {
    var guard := new AuthGuard.Guard(true);
    var asWritten := FavoriteClick(guard, true, id);
    assert asWritten == [] && !guard.showAuthModal;
    var corrected := FavoriteClickGated(guard, true, id);
    assert corrected == [id] == FavoriteClickDirect(id);
  }
}
