# property-hub in Dafny

A model of the core of property-hub, a Next.js real-estate listing site, with
proofs about it. At the centre is phone sign-in by one-time password (OTP):
`send-otp` issues a six-digit code for a phone number, and `verify-otp` checks
it against one credential record per canonical phone, in a fixed order of
checks. Around it sit smaller pieces of sequential logic:

- the pluggable SMS sender: provider selection, a lazily created singleton,
  and the 10–15-digit validator;
- the listing search: the client's query-string encoding, the route's
  decoding, the server's `where` object and row conversion, and the older
  page's client-side filter;
- listing creation: required fields, the URL slug, and image ordering;
- the upload route's file checks;
- the add-listing form's file and preview lists;
- small UI state machines: search-filter toggles and resets, favourites, the
  image carousel, the sign-in modal and the auth guard;
- the phone-dedupe migration script.

Each source file keeps its own form. Pure code is datatypes, functions and
lemmas. State that the source updates in place is a class: the credential
store, the SMS singleton holder, the add-listing form, the auth guard and the
phone sign-in form. The migration works on an array of users with nested loops.

The repository holds the older app under `real-estate/` beside the current
one, and much of its code is the same. One member models both copies; the
table cites one of them. The other copies are:

- `src/app/page.tsx:65-71` for `HomePage.HandleFavorite`;
- `real-estate/src/app/page.tsx:155-164` for `HomePage.ClearAll`;
- `real-estate/src/components/PropertyCard.tsx:27-41` for the carousel;
- `real-estate/src/components/SearchFilters.tsx` for the search-filter
  handlers: lines 22-27, 29-40, 129, 141, 158-162, 185-189 and 212-216;
- `real-estate/src/app/api/properties/route.ts:9-39` for the route's
  parameter parsing.

Modules, one per file: `Util`, `Sms`, `OtpAuth`, `PropertyQuery`,
`PropertyStore`, `ListingCreate`, `Upload`, `AddListing`, `SearchFiltersUi`,
`HomePage`, `AuthGuard`, `PropertyCard`, `PhoneAuthModal`, `PhoneMigration`.

Phone normalisation follows the code, not the project's written description.
Every non-digit is stripped, then `1` is put in front unless the digits
already start with `1`. No length is checked, and there is no 8-digit or
`976` country-code rule.

How effects become inputs:

- **Time:** a natural number of milliseconds, passed in.
- **`NODE_ENV`:** the `mode` parameter.
- **The random code:** a parameter in [100000, 999999].
- **The JWT:** an opaque token; "the token verifies" is a boolean input.
- **Database, SMS network, Cloudinary and `fetch`:** an in-memory map or
  sequence, or the outcome of the call passed in as a value.

## Model

| member | source | states |
|---|---|---|
| Util.Digits | src/app/api/auth/send-otp/route.ts:17 | `replace(/\D/g, '')`: the result is all digits and no longer than the input |
| Util.DigitsIdempotent | src/lib/sms/providers/twilio.ts:38 | stripping non-digits twice is stripping once |
| Util.OrElse | src/lib/sms/factory.ts:13 | `a \|\| b` on strings: `a` whenever it is non-empty, otherwise `b`; empty only when both are |
| Util.Lower | src/lib/database.ts:67-68 | `toLowerCase` on ASCII letters: the same length, `A`–`Z` mapped to `a`–`z`, every other character kept |
| Util.Contains | src/lib/database.ts:138-146 | `includes`: `t` is a prefix of `s` or of one of its suffixes |
| Util.ContainsAt | src/lib/database.ts:138-146 | `includes` holds exactly when `t` occurs at some position of `s` |
| Util.Upper | src/lib/database.ts:105 | `toUpperCase` on ASCII letters: the same length, `a`–`z` mapped to `A`–`Z`, every other character kept |
| Util.Remove | src/app/page.tsx:70 | `filter(id => id !== x)`: every `x` is gone; the other elements are kept in their order and with their counts (a subsequence whose multiset is the input's without `x`) |
| Util.ToggleMembership | src/app/page.tsx:67-70 | remove-if-present-else-append flips membership of `x` and keeps all others; a present `x` is filtered out with the rest kept in order and count; an absent `x` is appended once at the end |
| Util.Toggle | src/components/SearchFilters.tsx:210-214 | `includes ? filter : [...xs, x]`: a present value is filtered out, the rest kept as a subsequence with the same counts; an absent value is appended at the end |
| Util.ToggleTwice | src/components/SearchFilters.tsx:211-213 | toggling an absent value twice restores the list |
| Util.ToggleNoDuplicates | src/components/SearchFilters.tsx:211-213 | a duplicate-free list stays duplicate-free under a toggle |
| Util.Split | src/app/api/properties/route.ts:29 | `split(',')` gives at least one piece, no piece holds the separator, and the first piece is the text before the first separator (all of it when there is none) |
| Util.SplitJoin | src/app/api/properties/route.ts:29 | splitting a comma-join of separator-free pieces returns the pieces |
| Util.Join | src/lib/api.ts:112-122 | `join(sep)`: the empty list gives `""`; otherwise the text starts with the first piece and is longer than it exactly when there is a second piece |
| Util.NatToDecimal | src/lib/api.ts:108-109 | `toString()` of a natural: at least one digit, a leading `0` only for zero |
| Util.DecimalRoundTrip | src/lib/api.ts:108-109 | the printed digits evaluate back to the number |
| Util.ParseNumber | src/app/api/properties/route.ts:29 | `Number(s)` on a piece: `""` is 0, a digit string is its decimal value, anything else is `NaN` (`None`) |
| Util.ParseIntPrefix | src/app/api/properties/route.ts:26-27 | `parseInt`: `NaN` exactly when the text does not start with a digit; a digit string gives its value |
| Util.ParseIntPrefixDigitRun | src/app/api/properties/route.ts:26-27 | `parseInt` of a digit run followed by text that does not start with a digit is the digit run's value |
| Util.ParseIntOfDecimal | src/lib/api.ts:108-109 | `parseInt(n.toString()) == n` |
| Sms.CreateSmsProvider | src/lib/sms/factory.ts:7-29 | `twilio`, `vonage` and `console` give their providers, with `defaultFrom \|\| fromNumber` and `apiKey \|\| accountSid`, `apiSecret \|\| authToken`; any other name, `messagebird` included, is the error `Unsupported SMS provider: <name>` |
| Sms.Provider.ValidatePhoneNumber | src/lib/sms/providers/twilio.ts:35-43 | `validatePhoneNumber`: 10 to 15 digits once non-digits are stripped (its meaning is pinned by the three validation lemmas below) |
| Sms.ConfigFromEnv | src/lib/sms/factory.ts:36-51 | provider defaults to `console`; `defaultFrom` is the first non-empty of `SMS_FROM_NUMBER`, `VONAGE_FROM_NUMBER`, `TWILIO_FROM_NUMBER` |
| Sms.DefaultIsConsole | src/lib/sms/factory.ts:36 | with `SMS_PROVIDER` unset the console provider is built |
| Sms.SmsServiceHolder.GetSmsService | src/lib/sms/factory.ts:32-57 | the first successful call stores the provider; every later call returns that same provider whatever the environment; a factory error leaves the slot empty |
| Sms.SingletonClient | src/lib/sms/factory.ts:32-57 | scenario: after a successful first call, a call with a different environment returns the same provider |
| Sms.TwilioDestination | src/lib/sms/providers/twilio.ts:18 | the destination starts with `+`; it is the input when that already starts with `+`, else `+` and the input |
| Sms.TwilioDestinationIdempotent | src/lib/sms/providers/twilio.ts:18 | prefixing twice equals prefixing once |
| Sms.ConsoleMessageId | src/lib/sms/providers/console.ts:12 | the message id starts with `console_` |
| Sms.SendSms | src/lib/sms/providers/twilio.ts:13-33 | Twilio never throws, and succeeds exactly when the SDK accepted the request with the message as body, the configured sender as `from` and the destination with a leading `+`; console always succeeds with a `console_` id; Vonage and MessageBird always throw; success carries an id and no error, failure an error and no id |
| Sms.ValidationIgnoresPunctuation | src/lib/sms/providers/console.ts:16-20 | two inputs with the same digits get the same verdict |
| Sms.ValidationIgnoresSeparators | src/lib/sms/providers/vonage.ts:17-20 | non-digit padding around a number never changes the verdict |
| Sms.ValidationBounds | src/lib/sms/providers/messagebird.ts:17-20 | 9 or 16 digits are rejected, 10 or 15 accepted, whatever the punctuation |
| OtpAuth.NormalizeFixpoints | src/app/api/auth/send-otp/route.ts:17-18 | the result is canonical (digits, leading `1`); its fixed points are exactly the canonical strings; normalising is idempotent |
| OtpAuth.Normalize | src/app/api/auth/send-otp/route.ts:17-18 | the key is digits with a leading `1`; it is the input's digits when those start with `1`, and `1` followed by them otherwise |
| OtpAuth.NormalizeIgnoresPunctuation | src/app/api/auth/verify-otp/route.ts:19-20 | inputs with the same digits normalise to the same key |
| OtpAuth.NormalizeCountryCode | src/app/api/auth/send-otp/route.ts:18 | a local number and the same number with `1` in front reach the same record, `1` + the local digits |
| OtpAuth.CodeText | src/app/api/auth/send-otp/route.ts:37 | a code in [100000, 999999] prints as six digits with no leading zero |
| OtpAuth.OtpMessage | src/app/api/auth/send-otp/route.ts:61 | the SMS text contains the code |
| OtpAuth.IssueStep | src/app/api/auth/send-otp/route.ts:9-75 | 400 exactly for a missing or empty phone, with no write. 429 exactly in production within five minutes (strict) of the last send, with no write. Otherwise the record for the normalised phone is upserted: new code, expiry now+600000, attempts 0, last send now, `phoneVerified` kept or `false`, all other records unchanged. A reported SMS failure still answers success; only a thrown send answers 500. The code is echoed only in `development` |
| OtpAuth.IssuePreservesValid | src/app/api/auth/send-otp/route.ts:41-57 | every key stays canonical and every record well formed (code, expiry and send time together; expiry = send + 10 min; attempts ≤ 3) |
| OtpAuth.SmsFailureTolerated | src/app/api/auth/send-otp/route.ts:63-71 | a send that reports failure gives the same store and reply as one that succeeds |
| OtpAuth.VonageIssueFails | src/app/api/auth/send-otp/route.ts:41-83 | with the Vonage placeholder the record is written and then the reply is 500 |
| OtpAuth.SessionCookie | src/app/api/auth/verify-otp/route.ts:78-105 | cookie `auth-token`, http-only, `lax`, secure exactly in production, `maxAge` 604800 s equal to the token's 7-day lifetime, token for the verified phone |
| OtpAuth.VerifyStep | src/app/api/auth/verify-otp/route.ts:11-75 | checks in order: missing field, unknown phone, expiry (absent or before now; equal is valid), attempts ≥ 3 (429), code. A mismatch after all checks answers 400 and adds one to the attempts, writing nothing else. Success exactly when all pass and the code matches. Only a mismatch (attempts + 1, nothing else) or a success (verified, OTP fields cleared, attempts 0) writes, and only the looked-up record |
| OtpAuth.VerifyPreservesValid | src/app/api/auth/verify-otp/route.ts:44-57 | verifying keeps every record well formed; attempts never pass 3 |
| OtpAuth.CredentialStore.Issue | src/app/api/auth/send-otp/route.ts:5-84 | the in-place handler's new records and reply are those of `IssueStep` on the old records; the store invariant holds |
| OtpAuth.CredentialStore.Verify | src/app/api/auth/verify-otp/route.ts:7-116 | the in-place handler's new records and reply are those of `VerifyStep` on the old records; the store invariant holds |
| OtpAuth.IssueThenVerify | src/app/api/auth/verify-otp/route.ts:19-20 | issuing to a raw phone and verifying the issued code with the same raw phone before expiry gives 200, a verified record with no code and a 7-day cookie |
| OtpAuth.ThreeMismatchesThenCorrect | src/app/api/auth/verify-otp/route.ts:44-63 | three wrong codes give 400 each; the correct code afterwards gives 429, writes nothing, and attempts stay 3 |
| OtpAuth.ReplayRejected | src/app/api/auth/verify-otp/route.ts:66-75 | replaying the code after success is refused as expired |
| OtpAuth.ReissueAfterVerify | src/app/api/auth/verify-otp/route.ts:73 | after success an immediate re-issue is not held back by the cooldown |
| OtpAuth.CooldownOnlyInProduction | src/app/api/auth/send-otp/route.ts:26-34 | a second request within five minutes is 429 with no write in production and is served otherwise |
| OtpAuth.VerifyCreatesNothing | src/app/api/auth/verify-otp/route.ts:23-32 | verification never adds a record |
| PropertyQuery.ParsePropertyType | src/app/api/properties/route.ts:31-32 | the type guard accepts exactly the four names |
| PropertyQuery.Get | src/app/api/properties/route.ts:13-20 | `searchParams.get`: absent exactly when no pair has the name; a value found is one appended under it |
| PropertyQuery.EncodeParams | src/lib/api.ts:95-127 | `search`, when non-empty, is the first parameter; an empty search with no filter record sends no parameter |
| PropertyQuery.Serialize | src/lib/api.ts:129 | `params.toString()` without percent-encoding: the text starts with the first pair as `name=value` |
| PropertyQuery.PairTexts | src/lib/api.ts:129 | one `name=value` piece per pair, in order |
| PropertyQuery.PairSplit | src/lib/api.ts:129 | a `name=value` piece with no `=` in the value splits at `=` into its name and its value |
| PropertyQuery.SerializeSplit | src/lib/api.ts:129 | with no `&` in the values, splitting the query string at `&` gives exactly one `name=value` piece per pair, in order; with no `=` in the values either, each piece splits at `=` into its name and its value |
| PropertyQuery.GetAppend | src/app/api/properties/route.ts:13-20 | after appending, an earlier value under a name wins over a later one |
| PropertyQuery.SerializeEmpty | src/lib/api.ts:129 | the query string is empty exactly when nothing was appended |
| PropertyQuery.PropertiesUrl | src/lib/api.ts:129 | the URL has `?` and the query exactly when at least one parameter was appended |
| PropertyQuery.GetPropertiesUrl | src/lib/api.ts:95-131 | the builder loop of successive appends yields the URL of `EncodeParams` |
| PropertyQuery.EncodedParams | src/lib/api.ts:98-126 | `search`, `listingType` and `location` are present only when non-empty; both price bounds are present with a filter record; each list is present, comma-joined, only when non-empty |
| PropertyQuery.FilterAllowed | src/app/api/properties/route.ts:31-33 | every item naming a property type survives, and every survivor names an item |
| PropertyQuery.FilterAllowedOrder | src/app/api/properties/route.ts:31-33 | survivors keep their original order |
| PropertyQuery.ParseList | src/app/api/properties/route.ts:29-30 | an absent or empty parameter gives `[]`; otherwise the k-th element is `Number` of the k-th comma-separated piece |
| PropertyQuery.ParseFilters | src/app/api/properties/route.ts:23-35 | the route's filter record, field by field from `ParseBound`, `ParseList`, `ParseTypes`, `ParseListingType` and `OrEmpty` (each specified on its own row) |
| PropertyQuery.ParseListingType | src/app/api/properties/route.ts:13 | any non-empty value is taken as given; otherwise `sale` |
| PropertyQuery.ParseBound | src/app/api/properties/route.ts:26-27 | an absent or empty bound is its default (0 or 10000000); otherwise `parseInt`, `NaN` exactly when it does not start with a digit |
| PropertyQuery.OrEmpty | src/app/api/properties/route.ts:34 | an absent location becomes `""` |
| PropertyQuery.ParseTypes | src/app/api/properties/route.ts:31-33 | a type is kept exactly when its name is one of the pieces |
| PropertyQuery.RoutePlan | src/app/api/properties/route.ts:39-43 | a non-empty `search` is used alone and the filters are ignored |
| PropertyQuery.NumberListRoundTrip | src/lib/api.ts:112-118 | a list of naturals, comma-joined by the client and split and mapped through `Number` by the route, comes back as the same list |
| PropertyQuery.TypeListRoundTrip | src/lib/api.ts:120-122 | a list of property types comes back unchanged, order kept |
| PropertyQuery.BoundRoundTrip | src/lib/api.ts:108-109 | a printed price bound reads back as itself |
| PropertyQuery.QueryRoundTrip | src/app/api/properties/route.ts:23-35 | a client filter record with a listing type, sent without search, reaches the route's filter branch unchanged |
| PropertyQuery.SearchRoundTrip | src/lib/api.ts:147-149 | `searchProperties(q)` sends only `search` and the route takes the search branch |
| PropertyQuery.FetchApi | src/lib/api.ts:65-92 | success exactly for an OK reply with `success = true`; a non-OK status fails with that status; `success = false` fails with its error text or `API request failed`; every other failure is the generic network error |
| PropertyQuery.GetPropertyById | src/lib/api.ts:134-144 | a 404 becomes `null`; every other error propagates; success wraps the value |
| PropertyQuery.FeaturedSlice | src/lib/api.ts:152-157 | a prefix of the list of length `min(limit, n)` |
| PropertyStore.UpperNames | src/lib/database.ts:133 | the `in` list holds exactly the upper-cased type names |
| PropertyStore.LocationClauses | src/lib/database.ts:138-146 | the `OR` clause holds exactly when the lower-cased term is in city, address or state, or the original term is in the zip code |
| PropertyStore.BuildWhere | src/lib/database.ts:97-147 | `status` is always `ACTIVE`, and a row matches the built object exactly when it meets the filters: listing type upper-cased; price inclusive on both ends; bedrooms and bathrooms by exact membership, only for non-empty lists; types upper-cased; the location clause |
| PropertyStore.SearchWhere | src/lib/database.ts:191-203 | an active row matches exactly when the query is contained in one of six columns |
| PropertyStore.Select | src/lib/database.ts:149-164 | the matching rows, in their order |
| PropertyStore.FeaturedRows | src/lib/database.ts:248-268 | at most `limit` rows, all active and taken from the table |
| PropertyStore.InsertByOrder | src/lib/database.ts:70 | inserting into a list sorted by `order` keeps it sorted and adds exactly that image |
| PropertyStore.SortByOrder | src/lib/database.ts:70 | the images sorted by ascending `order`, as a permutation of the input |
| PropertyStore.SortSortedUnchanged | src/lib/database.ts:70 | an already sorted list is left as it is |
| PropertyStore.Urls | src/lib/database.ts:71 | one URL per image, in order |
| PropertyStore.NonZero | src/lib/database.ts:74-76 | `x \|\| undefined`: absent for null or 0, otherwise the value |
| PropertyStore.DatePart | src/lib/database.ts:83 | the date part is everything before the first `T` of the timestamp, or the whole text when it has none |
| PropertyStore.Convert | src/lib/database.ts:50-92 | id, title, description, address fields, price, rooms and area copied; `listedDate` is the date part of the timestamp; types lower-cased; images a sorted permutation of the rows' images; features `[]` when null; agent present exactly when joined, named `Unknown Agent` when the user has no name, with the user's phone and email; optional numbers absent when 0 |
| PropertyStore.Satisfying | src/lib/database.ts:149-166 | exactly the rows meeting the filters |
| PropertyStore.SelectSatisfying | src/lib/database.ts:149-166 | selecting with a `where` object equivalent to the filters gives the satisfying rows, in order |
| PropertyStore.ConvertAll | src/lib/database.ts:166 | `map(convertPrismaProperty)` pointwise |
| PropertyStore.GetProperties | src/lib/database.ts:97-167 | the result is the conversion of exactly the rows meeting the filters |
| PropertyStore.SelectedListingType | src/lib/database.ts:104-106 | a lower-case listing-type filter comes back on every converted result |
| ListingCreate.KeepSlugChars | src/app/api/properties/route.ts:129 | a subsequence of the input holding only `[a-z0-9\s-]`, with its letters and digits in order; text made only of those characters is unchanged |
| ListingCreate.KeepSlugCharsCounts | src/app/api/properties/route.ts:129 | every `[a-z0-9\s-]` character occurs exactly as often as in the input, every other character not at all |
| ListingCreate.TrimStart | src/app/api/properties/route.ts:132 | `trimStart()`: a suffix of the input that does not start with white space, only white space dropped before it |
| ListingCreate.TrimStartSpaces | src/app/api/properties/route.ts:132 | a white-space run followed by text that does not start with white space is cut exactly |
| ListingCreate.TrimStartCounts | src/app/api/properties/route.ts:132 | every character but white space keeps its count |
| ListingCreate.TrimEnd | src/app/api/properties/route.ts:132 | `trimEnd()`: a prefix of the input that does not end with white space, only white space dropped after it |
| ListingCreate.DashSpaces | src/app/api/properties/route.ts:130 | no white space remains; text without white space is unchanged |
| ListingCreate.DashSpacesChars | src/app/api/properties/route.ts:130 | every character of the result is `-` or from the input |
| ListingCreate.DashSpacesPrefix | src/app/api/properties/route.ts:130 | text without white space passes through unchanged in front of any rest |
| ListingCreate.DashSpacesRunStart | src/app/api/properties/route.ts:130 | a leading white-space run becomes one dash |
| ListingCreate.DashSpacesRun | src/app/api/properties/route.ts:130 | each maximal white-space run becomes exactly one dash: `w + sp + rest` gives `w + "-"` and the rest's result |
| ListingCreate.DashSpacesCounts | src/app/api/properties/route.ts:130 | every character but white space and `-` keeps its count |
| ListingCreate.DashSpacesAlnum | src/app/api/properties/route.ts:130 | letters and digits survive in order |
| ListingCreate.CollapseDashes | src/app/api/properties/route.ts:131 | no `--` remains; nothing new appears; the first character is kept; letters and digits are kept in order; text without `--` is unchanged |
| ListingCreate.CollapseDashesPrefix | src/app/api/properties/route.ts:131 | text without `--` that does not end in `-` passes through unchanged in front of any rest |
| ListingCreate.CollapseDashesRunStart | src/app/api/properties/route.ts:131 | a leading dash run becomes one dash |
| ListingCreate.CollapseDashesRun | src/app/api/properties/route.ts:131 | each maximal dash run becomes exactly one dash |
| ListingCreate.CollapseDashesCounts | src/app/api/properties/route.ts:131 | every character but `-` keeps its count |
| ListingCreate.Trim | src/app/api/properties/route.ts:132 | `trim()`: a slice of the input with only white space cut before and after it, and no white space at either end; a string without white space is unchanged |
| ListingCreate.TitleSlug | src/app/api/properties/route.ts:127-132 | the title part has only `[a-z0-9-]`, no `--`, and the letters and digits of the lower-cased title in order |
| ListingCreate.TitleSlugWords | src/app/api/properties/route.ts:127-132 | two words of letters and digits around white space become the lower-cased words joined by one dash ("Hello World" gives "hello-world") |
| ListingCreate.Slug | src/app/api/properties/route.ts:127-132 | the title part, then `-`, then exactly the decimal text of the creation time (no leading zero, as `Date.now().toString()` prints it), which `parseInt` reads back as that time; every character in `[a-z0-9-]` |
| ListingCreate.TitleSlugIdempotent | src/app/api/properties/route.ts:127-131 | the title part of a title part is itself |
| ListingCreate.ParseNum | src/app/api/properties/route.ts:140-143 | a JSON number is taken as it is; text by `parseInt` |
| ListingCreate.ParseOptional | src/app/api/properties/route.ts:150-152 | `null` exactly for a falsy value |
| ListingCreate.IsTruthy | src/app/api/properties/route.ts:118-124 | JavaScript truthiness of a body value: absent, `""` and `0` are falsy |
| ListingCreate.HasRequired | src/app/api/properties/route.ts:118-124 | all twelve required fields are truthy |
| ListingCreate.ImageRows | src/app/api/properties/route.ts:169-181 | the i-th URL gets `order = i` |
| ListingCreate.StoredFeatures | src/app/api/properties/route.ts:153 | features are stored only for a non-empty list |
| ListingCreate.CreateListing | src/app/api/properties/route.ts:63-202 | 401 exactly without a token; 404 exactly when the token verifies and names no user; 500 exactly when the token does not verify, or when all required fields are truthy but the title or a type is not text; 400 exactly when authorised with a user and a required field falsy (0 included); created exactly when all required fields are truthy and title and types are text. The created record has the title, description and address fields as sent, price, rooms and area parsed, lot size and parking optional, the slug, upper-cased types, `ACTIVE`, the owner and agent, stored features and one image row per URL |
| ListingCreate.ZeroPriceRejected | src/app/api/properties/route.ts:118-124 | price 0 or bedrooms 0 is a missing field |
| ListingCreate.ImagesKeepSubmittedOrder | src/app/api/properties/route.ts:169-181 | images read back in the order submitted |
| Upload.ValidFiles | src/app/api/upload/route.ts:41-45 | a subsequence of the submitted files holding exactly the files of an `image/` type of at most 10485760 bytes |
| Upload.ValidFilesCounts | src/app/api/upload/route.ts:41-45 | each valid file occurs in the result exactly as often as it was submitted, every other file not at all |
| Upload.UploadAll | src/app/api/upload/route.ts:62-91 | all-or-nothing: URLs exactly when every upload succeeds, the i-th URL from the i-th file |
| Upload.HandleUpload | src/app/api/upload/route.ts:14-113 | 401 exactly when the token is missing or empty; 500 exactly when a token is present but does not verify; 400 `No files provided` exactly for an empty list; 400 for no valid file and for more than 10 valid files; 200 exactly when the token verifies, there are 1 to 10 valid files and every one of them uploads, with `count = urls.length` = valid files and URLs in valid-file order; 500 exactly when some upload fails |
| Upload.InvalidFilesIgnored | src/app/api/upload/route.ts:41-59 | invalid files never change which files are valid, so they never count against the limit |
| Upload.JunkHasNoValidFiles | src/app/api/upload/route.ts:47-52 | a batch of invalid files has no valid file |
| Upload.ValidFilesIdempotent | src/app/api/upload/route.ts:41-45 | filtering twice is filtering once |
| Upload.SmallBatchNotTooMany | src/app/api/upload/route.ts:54-59 | a batch of at most ten files is never refused as too many |
| AddListing.ImageFiles | src/app/add-listing/page.tsx:93 | a subsequence of the selected files holding exactly the `image/` files |
| AddListing.ImageFilesCounts | src/app/add-listing/page.tsx:93 | each `image/` file occurs in the result exactly as often as it was selected, every other file not at all |
| AddListing.Previews | src/app/add-listing/page.tsx:108-111 | one object URL per file, in order |
| AddListing.RemoveAt | src/app/add-listing/page.tsx:118-119 | index `i` removed and the rest kept in order; an index outside the list removes nothing |
| AddListing.SubmissionImages | src/app/add-listing/page.tsx:160-193 | with no files, exactly the three fallback URLs; otherwise the uploaded URLs |
| AddListing.ListingForm.HandleInputChange | src/app/add-listing/page.tsx:76-81 | only the named field changes |
| AddListing.ListingForm.HandleFeatureToggle | src/app/add-listing/page.tsx:83-90 | the feature list is toggled; nothing else changes |
| AddListing.ListingForm.HandleFileSelect | src/app/add-listing/page.tsx:92-112 | no image: alert and no change; over ten in total: alert and no change; otherwise the images are appended in order, with one preview each; the lists stay equal in length and at most ten |
| AddListing.ListingForm.HandleFileRemove | src/app/add-listing/page.tsx:114-120 | index `i` is removed from both lists; lengths stay equal |
| AddListing.FormBatchNotTooMany | src/app/add-listing/page.tsx:100-103 | the form's files never trip the upload route's ten-file limit |
| SearchFiltersUi.FilterChange | src/components/SearchFilters.tsx:22-27 | the record is the old one with exactly the named field replaced |
| SearchFiltersUi.FilterChangeOverwrites | src/components/SearchFilters.tsx:22-27 | a second change to the same field overwrites the first |
| SearchFiltersUi.FilterChangesCommute | src/components/SearchFilters.tsx:22-27 | changes to different fields commute |
| SearchFiltersUi.ClearFilters | src/components/SearchFilters.tsx:29-40 | the defaults: price [0, 10000000], empty lists, `sale`, empty location, and an empty search issued |
| SearchFiltersUi.DefaultsEncoded | src/lib/api.ts:102-127 | the defaults encode as `listingType=sale`, `minPrice=0`, `maxPrice=10000000` only |
| SearchFiltersUi.ToggleBedroom | src/components/SearchFilters.tsx:210-214 | only `bedrooms` changes, to the toggle of the old list: a selected count is filtered out (others in order and count), an unselected one appended; membership of `n` flips, others keep theirs |
| SearchFiltersUi.ToggleBathroom | src/components/SearchFilters.tsx:237-241 | only `bathrooms` changes, to the toggle of the old list: a selected count is filtered out (others in order and count), an unselected one appended; membership of `n` flips, others keep theirs |
| SearchFiltersUi.ToggleType | src/components/SearchFilters.tsx:264-268 | only `propertyTypes` changes, to the toggle of the old list: a selected type is filtered out (others in order and count), an unselected one appended; membership flips, others keep theirs |
| SearchFiltersUi.ToggleBedroomTwice | src/components/SearchFilters.tsx:210-214 | toggling an absent count twice restores the record |
| SearchFiltersUi.ToggleBedroomNoDuplicates | src/components/SearchFilters.tsx:210-214 | toggling keeps the list duplicate-free |
| SearchFiltersUi.MinFromInput | src/components/SearchFilters.tsx:181 | unparsable input is 0; otherwise the `parseInt` value |
| SearchFiltersUi.MaxFromInput | src/components/SearchFilters.tsx:193 | unparsable or 0 is 10000000; otherwise the value; never 0 |
| SearchFiltersUi.MinDisplay | src/components/SearchFilters.tsx:177 | blank exactly for 0 |
| SearchFiltersUi.MaxDisplay | src/components/SearchFilters.tsx:189 | blank exactly for 10000000 |
| SearchFiltersUi.MinDisplayRoundTrip | src/components/SearchFilters.tsx:177-181 | the displayed min reads back as itself |
| SearchFiltersUi.MaxDisplayRoundTrip | src/components/SearchFilters.tsx:189-193 | the displayed max reads back as itself, except that 0 reads back as 10000000 |
| HomePage.FilteredProperties | real-estate/src/app/page.tsx:24-65 | exactly the kept properties, as an order-preserving subsequence |
| HomePage.Keep | real-estate/src/app/page.tsx:25-64 | the older page's per-property test, in the source's order of checks (its meaning is stated independently by `KeepExactly`) |
| HomePage.KeepExactly | real-estate/src/app/page.tsx:25-64 | kept exactly when: the lower-cased query is in the title, address, city or state (non-empty query only); the listing type matches; `min ≤ price ≤ max`; some selected bedroom and bathroom count is at most the property's (non-empty selections only); the type is selected (non-empty selection only) |
| HomePage.LocationIgnored | real-estate/src/app/page.tsx:24-65 | `filters.location` never changes the result |
| HomePage.FilterIdempotent | real-estate/src/app/page.tsx:24-65 | filtering the result again changes nothing |
| HomePage.HandleFavorite | real-estate/src/app/page.tsx:67-73 | a present id is removed (every occurrence) with the other ids kept in order and count; an absent one is appended once |
| HomePage.FavoriteTwice | src/app/page.tsx:65-71 | favouriting twice undoes it |
| HomePage.FavoritesStayDistinct | src/app/page.tsx:65-71 | a duplicate-free list stays duplicate-free |
| HomePage.Displayed | src/app/page.tsx:63 | the shown list is the server result, unfiltered |
| HomePage.ClearAll | src/app/page.tsx:229-238 | the defaults, keeping the listing type, with the search emptied |
| HomePage.ClearAllFromSale | src/app/page.tsx:32-39 | from `sale`, clearing returns to the initial state; from any type it differs from it at most in the listing type |
| HomePage.ClearAllKeeps | real-estate/src/app/page.tsx:155-164 | after clearing, exactly the properties of the kept listing type priced at most 10000000 are shown |
| AuthGuard.Guard.constructor | src/hooks/useAuthGuard.ts:13 | the modal starts closed |
| AuthGuard.Guard.RequireAuth | src/hooks/useAuthGuard.ts:16-22 | signed in: the callback runs (if given) and the flag is unchanged; signed out: the flag is set and no callback runs |
| AuthGuard.Guard.HandleAuthSuccess | src/hooks/useAuthGuard.ts:24-27 | the flag is cleared and `onSuccess` runs exactly when given |
| AuthGuard.Guard.CloseAuthModal | src/hooks/useAuthGuard.ts:29-31 | the flag is cleared and nothing is called |
| AuthGuard.SignInAfterGate | src/hooks/useAuthGuard.ts:16-27 | scenario: a signed-out request opens the modal and calls nothing; signing in closes it and runs the callback exactly when one was given |
| PropertyCard.NextImage | src/components/PropertyCard.tsx:41-43 | stays in [0, n) and wraps to 0 exactly from n−1 |
| PropertyCard.PrevImage | src/components/PropertyCard.tsx:49-51 | stays in [0, n) and wraps to n−1 exactly from 0 |
| PropertyCard.NextPrevInverse | src/components/PropertyCard.tsx:41-51 | next and prev undo each other on [0, n) |
| PropertyCard.NextTimes | real-estate/src/components/PropertyCard.tsx:30-32 | any number of nexts stays in [0, n) |
| PropertyCard.NextTimesAdd | src/components/PropertyCard.tsx:41-43 | a + b steps are a steps then b steps |
| PropertyCard.NextTimesBelow | src/components/PropertyCard.tsx:41-43 | k steps from i without wrapping reach i + k |
| PropertyCard.FullCircle | src/components/PropertyCard.tsx:41-43 | n nexts return to the start |
| PropertyCard.FormatPrice | src/components/PropertyCard.tsx:31-36 | the currency and formatted price, followed by the per-month suffix only for `rent` |
| PropertyCard.RentPriceIsSalePlusSuffix | src/components/PropertyCard.tsx:31-36 | the rent text is the sale text plus the suffix |
| PropertyCard.FormatPriceDollars | real-estate/src/components/PropertyCard.tsx:20-25 | exactly `$` and the number, followed by `/mo` for `rent` and by nothing otherwise |
| PropertyCard.FavoriteClickDirect | real-estate/src/components/PropertyCard.tsx:43-47 | every click calls `onFavorite(id)` once, with no auth gate |
| PropertyCard.FavoriteClick | src/components/PropertyCard.tsx:54-58 | as written: no `onFavorite` call from the click itself; signed out, the modal opens |
| PropertyCard.FavoriteClickGated | src/components/PropertyCard.tsx:23-29 | corrected: signed in, `onFavorite(id)` runs at once; signed out, the modal opens and nothing runs |
| PropertyCard.SignInFromCard | src/components/PropertyCard.tsx:23-29 | signing in from the card's modal calls `onFavorite(id)` once and closes the modal |
| PhoneAuthModal.FormatPhoneNumber | src/components/PhoneAuthModal.tsx:33-40 | exactly 10 digits give a 14-character `(ddd) ddd-dddd`; any other input comes back unchanged |
| PhoneAuthModal.FormatKeepsDigits | src/components/PhoneAuthModal.tsx:33-40 | formatting keeps the digit sequence |
| PhoneAuthModal.FormatIdempotent | src/components/PhoneAuthModal.tsx:33-40 | formatting twice is formatting once |
| PhoneAuthModal.SanitizeOtp | src/components/PhoneAuthModal.tsx:211 | the first six digits of the input, or all of its digits when there are at most six |
| PhoneAuthModal.SanitizeIdempotent | src/components/PhoneAuthModal.tsx:211 | sanitising twice is sanitising once |
| PhoneAuthModal.Tick | src/components/PhoneAuthModal.tsx:61-67 | never negative; c ≥ 1 goes to c − 1 |
| PhoneAuthModal.TicksCount | src/components/PhoneAuthModal.tsx:61-67 | k ticks from c reach c − k, or 0 once k ≥ c |
| PhoneAuthModal.ResendAfterSixty | src/components/PhoneAuthModal.tsx:59-68 | from 60 the countdown is positive for 59 ticks and 0 after 60 |
| PhoneAuthModal.PhoneAuthForm.constructor | src/components/PhoneAuthModal.tsx:22-27 | step `phone`, empty fields, countdown 0 |
| PhoneAuthModal.PhoneAuthForm.SetPhoneInput | src/components/PhoneAuthModal.tsx:186 | the phone field is the formatted input; nothing else changes |
| PhoneAuthModal.PhoneAuthForm.SetOtpInput | src/components/PhoneAuthModal.tsx:211 | the code field is the sanitised input; nothing else changes |
| PhoneAuthModal.PhoneAuthForm.SubmitPhone | src/components/PhoneAuthModal.tsx:42-74 | ignored while loading; fewer or more than 10 digits set the error and send nothing; otherwise the digits are sent; success moves to `otp` with countdown 60, failure sets the error |
| PhoneAuthModal.PhoneAuthForm.SubmitOtp | src/components/PhoneAuthModal.tsx:76-99 | busy: nothing changes and nothing is called; a code not of length 6: only the error is set; otherwise `login(digits, otp)`. Success runs `onSuccess` exactly when one was given, closes and resets; failure sets only the error, keeping step, phone, code and countdown |
| PhoneAuthModal.PhoneAuthForm.ResendOtp | src/components/PhoneAuthModal.tsx:114-138 | a no-op while the countdown is positive; otherwise resends, and success restarts the countdown at 60 |
| PhoneAuthModal.PhoneAuthForm.TickCountdown | src/components/PhoneAuthModal.tsx:61-67 | the countdown takes one tick; nothing else changes |
| PhoneAuthModal.PhoneAuthForm.ResetForm | src/components/PhoneAuthModal.tsx:101-107 | step `phone`, empty phone, code and error, countdown 0 |
| PhoneAuthModal.PhoneAuthForm.HandleClose | src/components/PhoneAuthModal.tsx:109-112 | the form is reset and the modal closed |
| PhoneAuthModal.PhoneAuthForm.ChangePhone | src/components/PhoneAuthModal.tsx:241 | back to step `phone`; everything else kept |
| PhoneAuthModal.SignInScenario | src/components/PhoneAuthModal.tsx:42-99 | scenario: type a ten-digit phone, send, a resend inside the countdown is refused, type the code, verify; the modal closes and the form is empty |
| PhoneMigration.SharedPhonesAreShared | scripts/migrate-phone-unique.js:28-34 | the grouping query returns exactly the non-null phones held by more than one user |
| PhoneMigration.Keeper | scripts/migrate-phone-unique.js:48-51 | −1 exactly when nobody holds the phone; otherwise a holder |
| PhoneMigration.KeeperIsFirst | scripts/migrate-phone-unique.js:48-54 | the keeper was created no later than any other holder, ties going to the earlier table position |
| PhoneMigration.Migrated | scripts/migrate-phone-unique.js:39-61 | ids and creation times are kept; a phone is kept or nulled, never changed; users with a null or unshared phone are untouched; a holder of a shared phone keeps it exactly when it is the keeper |
| PhoneMigration.ClearPhone | scripts/migrate-phone-unique.js:54-60 | every holder of the phone except the keeper gets a null phone; everyone else is unchanged |
| PhoneMigration.DedupePhone | scripts/migrate-phone-unique.js:47-61 | one group's lookup and updates on the current table give the state with that phone processed |
| PhoneMigration.MigratePhoneUnique | scripts/migrate-phone-unique.js:47-61 | the nested loops leave every user as `Migrated` of the original table |
| PhoneMigration.NoSharedAfter | scripts/migrate-phone-unique.js:47-61 | afterwards no two users share a non-null phone |
| PhoneMigration.PhonesKept | scripts/migrate-phone-unique.js:47-61 | the set of non-null phones is the same before and after |
| PhoneMigration.PhoneCountAfter | scripts/migrate-phone-unique.js:47-61 | afterwards the number of users with a phone equals the number of distinct phones before |
| PhoneMigration.MigrationIdempotent | scripts/migrate-phone-unique.js:47-61 | running the migration again changes nothing |

## Left out

- JWT signing and verification (`jose`), HS256 and cookie serialisation. The token is opaque and "verifies" is an input; a token that fails to verify is the handler's 500.
- `Math.random`, `Date.now` and `new Date()`. The code and the clock are parameters.
- The Prisma layer. Tables are maps, sequences or an array. `findMany`'s `orderBy` on `listedDate` and on `price`/`listedDate` is not modelled; rows are taken in the order given.
- PropertyStore.FeaturedRows: does not state the price-then-date order of `getFeaturedProperties`, only the limit, the status and provenance.
- Prisma's `contains` is taken as case-sensitive substring search. The collation of the database behind it is not modelled.
- Races between concurrent requests on one phone: last writer wins, and the attempt ceiling is soft. Every handler is modelled as atomic.
- External I/O is an input:
  - Cloudinary uploads (`host`);
  - the Twilio SDK send (a function from the request to its `TwilioReply`);
  - `fetch` and `response.json()` (`HttpReply`);
  - `URL.createObjectURL` (`objectUrl`);
  - `toLocaleString` (`format`).
- Sms.SendSms: the Twilio `cost` field (`parseFloat` of the price) is not modelled.
- Floating point is not modelled. Bathrooms are naturals, so `parseFloat` and half-bathroom steps are missing; latitude and longitude, and so `coordinates`, are missing too.
- `parseInt` and `Number` are modelled on ASCII digit strings only. Leading white space, signs, hexadecimal and exponents are not; `Number` of any other text is `NaN`.
- Util.Lower: maps ASCII letters only; Unicode case mapping is not modelled.
- Util.Upper: maps ASCII letters only; JavaScript's `toUpperCase` can lengthen text (`ß` becomes `SS`), which is not modelled.
- URLSearchParams percent-encoding. A parameter list is its sequence of (name, value) pairs, and `Serialize` writes them unescaped.
- PropertyQuery.EncodeParams: a filter record always has a price range, so a `Partial` record without `priceRange` (no bounds sent) is not modelled.
- An `otp` sent as a JSON number to `verify-otp` is not modelled. It would never equal the stored string.
- OtpAuth.IssueStep, OtpAuth.VerifyStep: `phone` is text or absent. A truthy non-text `phone` makes `phone.replace` throw (500), and so does a body that is not JSON; neither is modelled.
- ListingCreate.CreateListing: numbers in the body are naturals, so a negative `price`, which the route accepts and stores, is not modelled.
- PropertyStore.BuildWhere: a `NaN` price bound is taken to match no row. How Prisma treats `NaN` is not visible in the source.
- `convertPrismaProperty` takes `features` as the already decoded list; `JSON.parse` is not modelled.
- ListingCreate.CreateListing: a title, property type or listing type that is present but not text is taken to throw (500). The `images` and `features` values are taken to be lists of strings.
- AddListing.ListingForm.HandleInputChange: covers the fifteen scalar fields; `features` and `images` change only through their own handlers.
- The phone input's `maxLength` attribute and every other rendering detail: JSX, CSS, React effects, object-URL revocation and the map component.
- Timers: `setInterval` in the sign-in modal and the `useDebounce` hook. Only the countdown's tick function is modelled.
- PhoneAuthModal.PhoneAuthForm: `loading` is a field that no handler leaves set, since each asynchronous handler is modelled as one atomic step.
- `GET /api/auth/me`, the seed and deploy scripts, the sample data and the type-only files hold no logic of the core.
- PropertyMap.tsx is not part of this model.
- PhoneMigration: the keeper among users created at the same instant is the one earlier in the table; the database's order for such ties is unspecified.

## Findings

| source | as written | input that shows it | evidently intended | confidence | as-written member | corrected member |
|---|---|---|---|---|---|---|
| src/components/PropertyCard.tsx:54-58 | the favourite button calls `requireAuth()` with no callback, and the guard's `onSuccess` runs only after a sign-in through the modal | a signed-in user (`isAuthenticated = true`) clicks the heart: `onFavorite` is never called and the modal stays closed (`PropertyCard.SignedInFavoriteIsLost`) | `requireAuth(() => onFavorite?.(property.id))`, so a signed-in click favourites at once, as the older card does | not executed | PropertyCard.FavoriteClick | PropertyCard.FavoriteClickGated |
