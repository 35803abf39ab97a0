# Company contact enricher: a verified Dafny model

The system reads a Google Sheet of Argentine businesses and processes every row not yet marked
`COMPLETADO`. For each business it:

- searches DuckDuckGo for the business website;
- opens the site in a headless browser;
- pulls out an email, a phone number and a street address;
- if the first page lacks an email or a phone, visits up to three contact pages;
- classifies the record as SUCCESS, PARTIAL or FAILED.

Next to this pipeline sit two services:

- a CUIT (Argentine tax id) service: check-digit validation, formatting, and name lookups that use
  an edit-distance similarity;
- a Google Maps service: Places search with a Geocoding fallback.

This project models the decision logic of those services in Dafny and proves what the code
promises about it. All I/O is turned into inputs:

- The browser, the HTTP APIs and the Sheets API become parameters that say how each call ended:
  it returned a value (`Returned`) or it threw (`Threw`).
- Regular-expression matches are the input lists the code then filters.
- The browser is reduced to its count of open pages, so "the page is closed on every exit path"
  can be stated and proved.

Modules (one file each):

- `Scraper` (scraper.dfy): contact extraction.
  - `ExtractPhones`, `ExtractAddress`, `ExtractFromPage`, `SearchContactPages` and
    `ScraperService.ExtractContacts` are methods with loops or state.
  - Each is proved equal to a specification function, and the properties are proved of that
    function.
- `Cuit` (cuit.dfy):
  - validation, with a summing loop;
  - formatting;
  - the `LevenshteinDistance` table fill on a two-dimensional array, proved equal to the recursive
    edit distance `Dist`;
  - similarity, with `real` arithmetic;
  - name cleaning;
  - the three lookup loops and the field-filling decisions of `enrichCUITData`.
- `Enricher` (enricher.dfy): per-record classification and its failure paths.
- `Sheets` (sheets.dfy): row-to-company parsing of the fetched table, a loop proved against
  `PendingRows`.
- `Search` (search.dfy): the `SearchService` class, with its nullable browser field and the page it
  opens and closes, the query template and the href filter.
- `Maps` (maps.dfy): the query builder with its `parts` array, Places, Geocoding and
  the fallback chain.
- `Errors` (errors.dfy) and `Helpers` (helpers.dfy): error values, `getErrorMessage`,
  `createAppError` and `attempt`.
- Shared modules:
  - `Wrappers`: `Option`, and JavaScript truthiness of optional strings;
  - `Strings`: JavaScript whitespace, trim, collapse and join;
  - `Lists`: filter, map, slice and first-occurrence de-duplication with `indexOf` semantics;
  - `Types`: the records of src/utils/types.ts;
  - `BrowserSession`: the page counter. `BrowserSession.Browser`'s constructor stands for the browser that
    `puppeteer.launch` returns (src/services/search.ts:7), `NewPage` for `browser.newPage()`
    (src/services/scraper.ts:16, src/services/search.ts:16), and `ClosePage` for the `page.close()` in each
    `finally` (src/services/scraper.ts:47, src/services/search.ts:37).

Where the behaviour differs from what one might expect, the model follows the code:

- The status uses only email and phone. A found website with no contact data is FAILED
  (src/enricher.ts:38-41).
- `findContactUrls` keeps five links, but only the first three are visited
  (src/services/scraper.ts:87, src/services/scraper.ts:142).
- `findContactUrls` runs outside the loop's `try`. If reading the links fails, the error reaches
  `extractContacts`'s `catch`, and the result is `{website: url}`. The primary page's email or
  phone is lost (src/services/scraper.ts:31, src/services/scraper.ts:85). `ContactSearchFillsGaps`
  states this.
- `validateCUIT` takes remainder 1 as check digit 1, where the published AFIP rule has no valid
  digit. `RemainderOneAccepted` exhibits an eleven-digit string that the code accepts for this
  reason. The model keeps the code's rule. The code's comment only claims "the Argentine CUIT
  algorithm", so this is recorded as a divergence, not as a finding.

## Model

| member | source | states |
|---|---|---|
| Wrappers.OrElse | src/services/scraper.ts:222-224 | `a \|\| b` on optional strings: the first when truthy, otherwise the second |
| Errors.AppErrorsAreCreated | src/utils/errors.ts:7-9 | `isAppError` holds exactly for the values `createAppError` can build: `Error` instances with a message, an optional code and optional details; strings and other thrown values fail it |
| Errors.GetErrorMessage | src/utils/errors.ts:11-19 | an `Error` gives its message, a thrown string gives itself, anything else gives "Error desconocido" |
| Errors.CreateAppError | src/utils/errors.ts:21-26 | the result is an `Error` whose message, code and details are exactly the arguments |
| Errors.CreatedErrorMessage | src/utils/errors.ts:11-26 | `getErrorMessage` reads back the message `createAppError` stored |
| Helpers.Attempt | src/helpers/helpers.ts:1-13 | on success the `data` field holds the resolved value and `error` is `null`; on a throw `data` is `null` and `error` holds the thrown value; `attempt` itself always returns |
| Helpers.AttemptIsFaithful | src/helpers/helpers.ts:1-13 | the outcome of `fn` can be recovered from the record, so nothing is lost |
| Lists.Dedupe | src/services/scraper.ts:152 | keeps each element once, in first-occurrence order, and drops nothing else |
| Lists.DedupeHead | src/services/scraper.ts:152 | de-duplication keeps the first element first |
| Lists.MapWhere | src/services/scraper.ts:124-133 | the pushed list holds the image of every element that passes the test, and only such images |
| Lists.MapWhereFilter | src/services/scraper.ts:124-133 | pushing the images of the passing elements gives `s.filter(p).map(f)`, so their order is kept |
| Lists.DedupeKeeps | src/services/scraper.ts:135 | removing repeats keeps every pushed image and adds nothing |
| Lists.FirstDistinct | src/services/scraper.ts:150-153 | at most `n` distinct elements of the input satisfying `p`, in first-occurrence order; a satisfying element is dropped only when `n` earlier ones were kept |
| Lists.FirstDistinctHead | src/services/scraper.ts:76-77 | element `[0]` of the chain exists iff some element passes the test, and is then the first element that passes |
| Lists.FilterHead | src/services/search.ts:35 | the head of `filter(p)` exists exactly when `findIndex(p) >= 0` and is the element at that index |
| Strings.NormalizeSpaces | src/services/cuit.ts:168-169 | no white space at either end, no two spaces in a row, every space a plain `' '` |
| Strings.NormalizeSpacesWords | src/services/cuit.ts:168-169 | `s.replace(/\s+/g, ' ').trim()` is the words of `s` (its maximal runs of non-white-space characters, in order) joined by single spaces |
| Strings.CollapseWords | src/services/cuit.ts:168 | for a string not starting with white space, the `replace` gives its words joined by single spaces, plus one space when it ends in white space |
| Strings.WordsShape | src/services/cuit.ts:168-169 | every word is non-empty and holds no white space |
| Strings.NormalizeKeepsText | src/services/cuit.ts:168-169 | normalising whitespace keeps every non-space character, in order |
| Strings.NormalizeIdempotent | src/services/cuit.ts:168-169 | normalising twice is normalising once |
| Scraper.ShouldBlock | src/services/scraper.ts:57-64 | a request is aborted iff its resource type is image, stylesheet, font or media |
| Scraper.EmailDomain | src/services/scraper.ts:208 | a domain iff the address contains `@`; it is the lower-cased text between the first `@` and the next `@` or the end, so it holds no `@` |
| Scraper.IsValidBusinessEmail | src/services/scraper.ts:202-210 | an accepted address contains `@`; its verdict is decided by the domain that `EmailDomain` gives (see EmailVerdict) |
| Scraper.EmailVerdict | src/services/scraper.ts:202-210 | `local@domain` is accepted iff the lower-cased domain is non-empty and not one of the eight free providers |
| Scraper.ExtractEmails | src/services/scraper.ts:145-154 | the first 3 distinct business addresses: each kept one is a match, in first-occurrence order; a business address is missing only when 3 were kept and all 3 occur before it |
| Scraper.RemoveSeparators | src/services/scraper.ts:214 | no whitespace, `-`, `(` or `)` remains and every kept character comes from the input |
| Scraper.RemoveSeparatorsFilter | src/services/scraper.ts:214 | the result is exactly the input's characters other than whitespace, `-`, `(` and `)`, in order; each such character is kept |
| Scraper.PhonePrefixSplit | src/services/scraper.ts:215-216 | the two anchored replacements remove exactly one of `+540`, `+54`, `0` or nothing from the front |
| Scraper.NormalizePhone | src/services/scraper.ts:212-217 | no separator remains, never longer than the input; the result is the separator-free number minus exactly one of `+540`, `+54`, `0` or nothing, chosen by its prefix |
| Scraper.PhonesOf | src/services/scraper.ts:171-180 | at most 3 distinct numbers, each of length >= 8, each the normalisation of some match |
| Scraper.PhonesOrder | src/services/scraper.ts:171-180 | first-occurrence order across the patterns taken in turn; a long-enough number is dropped only when 3 earlier ones were kept |
| Scraper.ExtractPhones | src/services/scraper.ts:156-181 | the `forEach`/`push` loop followed by the chain computes `PhonesOf` |
| Scraper.AddressOf | src/services/scraper.ts:183-200 | an address iff some pattern has a non-empty first match; then it is the first such match, trimmed and cut to 200 characters |
| Scraper.ExtractAddress | src/services/scraper.ts:192-199 | the early-return loop over the patterns computes `AddressOf` |
| Scraper.PageInfo | src/services/scraper.ts:67-82 | the website is the page URL and there is no social media; an email iff some match is a business address, and then the first such match; a phone iff some normalised match has >= 8 characters, and then the first such; an address iff some pattern has a non-empty first match, and then the first such, trimmed and cut to 200 |
| Scraper.ExtractFromPage | src/services/scraper.ts:67-82 | computes `PageInfo` |
| Scraper.MentionsKeywordSome | src/services/scraper.ts:128-130 | the keyword test holds iff some keyword occurs in the text or in the href |
| Scraper.ContactHrefs | src/services/scraper.ts:124-133 | the `forEach` pushes the href of every contact anchor and nothing else |
| Scraper.ContactHrefsInOrder | src/services/scraper.ts:124-133 | the pushed list is the contact anchors' hrefs in document order |
| Scraper.ContactLinks | src/services/scraper.ts:115-136 | the pushed hrefs without repeats, in first-occurrence order; it holds the href of every anchor whose lower-cased text or href contains a keyword, and nothing else |
| Scraper.AbsolutizeKeepsOrigin | src/services/scraper.ts:140-141 | a same-site link made absolute starts with the origin |
| Scraper.SameSiteLinks | src/services/scraper.ts:140 | keeps exactly the links that start with the origin or with `/`; from a list without repeats, they stay without repeats and in their original order |
| Scraper.AbsoluteLinks | src/services/scraper.ts:141 | each link in turn, with the origin put in front of a root-relative one |
| Scraper.ContactUrlSource | src/services/scraper.ts:115-141 | a same-site contact link made absolute starts with the origin and is a contact anchor's href, perhaps behind the origin |
| Scraper.FindContactUrls | src/services/scraper.ts:111-143 | the first min(5, n) of the n same-site contact links, in order, each made absolute; each starts with the origin and is a contact anchor's href, perhaps behind the origin |
| Scraper.FindContactUrlsComplete | src/services/scraper.ts:139-142 | a same-site contact link is missing from the result only when five URLs were kept |
| Scraper.Yield | src/services/scraper.ts:88-105 | a contact page contributes iff it loads and shows an email or a phone, and then it contributes its own record |
| Scraper.ContactPagesChoice | src/services/scraper.ts:84-109 | only the first 3 URLs are tried; the result is the first that yields, skipping failures, otherwise `{website: baseUrl}` |
| Scraper.SearchContactPages | src/services/scraper.ts:84-109 | the loop with `continue` and early return computes `ContactPagesResult` |
| Scraper.MergeContactInfo | src/services/scraper.ts:219-226 | the website of the first record; email, phone and address from the first when non-empty, otherwise from the second |
| Scraper.MergePresence | src/services/scraper.ts:219-226 | a field is present in the merge iff it is present in either record |
| Scraper.MergeAssociative | src/services/scraper.ts:219-226 | merging is associative |
| Scraper.PageContacts | src/services/scraper.ts:19-45 | the website is the URL and there is no social media; a failed load of the first page gives `{website: url}`; so does a failed link scan when the first page lacks an email or a phone |
| Scraper.ScrapePage | src/services/scraper.ts:19-45 | the scraping inside `try`, with a failed page load or link scan caught as `{website: url}`, computes `PageContacts` |
| Scraper.ContactsResult | src/services/scraper.ts:13-49 | throws iff opening the page fails; otherwise the website is the given URL, and a failed first load gives `{website: url}` |
| Scraper.ContactSearchOnlyWhenMissing | src/services/scraper.ts:27-33 | with email and phone on the first page, contact pages are never consulted |
| Scraper.ContactSearchFillsGaps | src/services/scraper.ts:27-45 | the first page's email, phone and address are kept and only missing ones are filled from the contact pages; a failed link scan gives `{website: url}` |
| Scraper.ScraperService.constructor | src/services/scraper.ts:9-11 | the service keeps the browser it is given |
| Scraper.ScraperService.ExtractContacts | src/services/scraper.ts:13-49 | the page count is the same on every exit (the page is closed in `finally`), and the result is `ContactsResult` |
| Cuit.Digits | src/services/cuit.ts:213 | only digits, never longer than the input |
| Cuit.DigitsFilter | src/services/cuit.ts:213 | `replace(/\D/g, '')` keeps exactly the input's decimal digits, in order |
| Cuit.CheckDigit | src/services/cuit.ts:225-226 | the check digit is a digit 0-9 |
| Cuit.IsValidCuit | src/services/cuit.ts:212-229 | a valid CUIT has exactly 11 digits |
| Cuit.ValidateCUIT | src/services/cuit.ts:212-229 | the summing loop decides `IsValidCuit` |
| Cuit.ValidityIgnoresNonDigits | src/services/cuit.ts:213 | separators do not affect validity |
| Cuit.UniqueCheckDigit | src/services/cuit.ts:218-228 | every ten-digit prefix has exactly one accepted final digit, the check digit |
| Cuit.RemainderOneAccepted | src/services/cuit.ts:225-228 | `00060000001` has remainder 1 and is accepted |
| Cuit.FormatCUIT | src/services/cuit.ts:232-238 | with 11 digits: `DD-DDDDDDDD-D` carrying the same digits; otherwise the input unchanged |
| Cuit.FormatKeepsValidity | src/services/cuit.ts:232-238 | formatting does not change validity |
| Cuit.FormatIdempotent | src/services/cuit.ts:232-238 | formatting a formatted CUIT changes nothing |
| Cuit.Min3 | src/services/cuit.ts:199-203 | `Math.min` of three: below all three and equal to one |
| Cuit.LeastIsMin3 | src/services/cuit.ts:199-203 | the least of three values is their `Math.min` |
| Cuit.DistSymmetric | src/services/cuit.ts:183-209 | the edit distance is symmetric |
| Cuit.DistAtLeastLengthGap | src/services/cuit.ts:183-209 | the distance is at least the difference of the lengths |
| Cuit.DistAtMostLonger | src/services/cuit.ts:183-209 | the distance is at most the longer length |
| Cuit.DistDropLastSecond | src/services/cuit.ts:183-209 | dropping the second string's last character changes the distance by at most one |
| Cuit.DistDropLastFirst | src/services/cuit.ts:183-209 | the same for the first string |
| Cuit.DistEqualLast | src/services/cuit.ts:196-197 | a common last character can be dropped without changing the distance |
| Cuit.DistDifferentLast | src/services/cuit.ts:198-204 | with different last characters the distance is the least of the three one-step options |
| Cuit.DistSelf | src/services/cuit.ts:183-209 | a string is at distance 0 from itself |
| Cuit.DistZeroOnlyForEqual | src/services/cuit.ts:183-209 | distance 0 only for equal strings |
| Cuit.DistanceFacts | src/services/cuit.ts:183-209 | the bounds, symmetry and zero cases the similarity relies on |
| Cuit.LevenshteinStep | src/services/cuit.ts:194-206 | each cell's recurrence agrees with the recursive definition |
| Cuit.FillRow | src/services/cuit.ts:195-205 | the inner loop fills row `i` with the edit distances of the first `i` characters of `str2` to every prefix of `str1`, leaving the other rows alone |
| Cuit.LevenshteinDistance | src/services/cuit.ts:183-209 | the table-filling loops return exactly the edit distance |
| Cuit.Similarity | src/services/cuit.ts:172-181 | the ratio is between 0 and 1 and equals 1 iff the strings are equal |
| Cuit.CalculateSimilarity | src/services/cuit.ts:172-181 | computes `Similarity` through `LevenshteinDistance` |
| Cuit.CleanBusinessName | src/services/cuit.ts:165-170 | the words of the suffix-stripped name joined by single spaces: none at the ends, no two in a row, all other characters kept in order |
| Cuit.ApiName | src/services/cuit.ts:62-75 | one API turn gives a name iff the request returned a non-empty `razonSocial`, and then that name |
| Cuit.RazonSocialFromApis | src/services/cuit.ts:61-79 | null iff no API answers a non-empty name for the cleaned CUIT; otherwise the name of the first API that does, skipping failures |
| Cuit.RazonSocialLookup | src/services/cuit.ts:50-85 | null for a CUIT without exactly 11 digits; otherwise null iff no API answers for the digits, and else the first API's non-empty name |
| Cuit.MalformedCuitMakesNoRequest | src/services/cuit.ts:53-58 | the length guard runs before any request |
| Cuit.GetRazonSocialFromCUIT | src/services/cuit.ts:50-85 | the guard and the API loop compute `RazonSocialLookup` |
| Cuit.FirstCloseCuit | src/services/cuit.ts:104-110 | the `cuit` of the first item that `find` accepts |
| Cuit.ApiCuit | src/services/cuit.ts:93-115 | one API turn ends the loop iff the request returned an answer with a close match, and then gives that match's `cuit` |
| Cuit.CuitFromApis | src/services/cuit.ts:92-118 | null when no API's answer has a close match (present name, similarity > 0.8); otherwise the `cuit` of the first close match in the first such answer, which may itself be missing |
| Cuit.CuitLookup | src/services/cuit.ts:87-124 | over the configured APIs: null when no answer has a close match; otherwise the `cuit` of the first close match in the first answer that has one |
| Cuit.GetCUITFromRazonSocial | src/services/cuit.ts:87-124 | the API loop with `find` computes `CuitLookup` |
| Cuit.SearchTerms | src/services/cuit.ts:132-138 | exactly the five terms, in order: clean, original, clean + " SA", " SRL", " SAS" |
| Cuit.TermInfo | src/services/cuit.ts:141-147 | a term yields a record iff its lookup gives a non-empty CUIT, with the term as legal name |
| Cuit.BusinessNameTermOrder | src/services/cuit.ts:126-156 | the result is that of the first term whose lookup succeeds; null iff none does |
| Cuit.TermStep | src/services/cuit.ts:140-147 | one turn of the term loop: a non-empty CUIT ends the search with that term as legal name; otherwise the search goes on with the next term |
| Cuit.FirstTermWithCuit | src/services/cuit.ts:140-150 | the loop over the terms returns the record of the first term whose lookup gives a non-empty CUIT, and null when none does |
| Cuit.SearchByBusinessName | src/services/cuit.ts:126-156 | the loop over the terms computes `BusinessNameLookup` |
| Cuit.EnrichCUITData | src/services/cuit.ts:12-48 | one result per branch: a CUIT without legal name takes the looked-up name when found; a legal name without CUIT takes the looked-up CUIT when found; neither takes the CUIT and term of the name search when found; otherwise the company unchanged. Name, location and row are always kept |
| Cuit.BusinessNameFound | src/services/cuit.ts:36-42 | a search by name only fills a non-empty CUIT |
| Enricher.Classify | src/enricher.ts:38-41 | never PENDING; SUCCESS iff email and phone, PARTIAL iff exactly one, FAILED iff neither |
| Enricher.EnrichCompany | src/enricher.ts:18-56 | company fields kept; no website or any throw gives FAILED with `{}`; otherwise the scraped record with its classification |
| Enricher.NoWebsiteNoExtraction | src/enricher.ts:23-30 | without a website the extraction is never used |
| Enricher.FailedMeansNoContact | src/enricher.ts:18-56 | every record is classified, and FAILED exactly when the record carries neither email nor phone |
| Enricher.AsWiredAlwaysFails | src/enricher.ts:9-12 | with the scraper wired to the search service, every record with a website ends FAILED with `{}` |
| Enricher.CorrectedWiringClassifies | src/enricher.ts:34-47 | with the scraper on a real browser, the status follows the scraped record and its website is the one found |
| Sheets.FindColumns | src/services/sheets.ts:48-54 | each column is the first header containing its keyword, -1 when none does |
| Sheets.Cell | src/services/sheets.ts:58-63 | the cell when the index is in the row, otherwise `''` |
| Sheets.PendingRows | src/services/sheets.ts:56-67 | at most one company per data row, row numbers between 2 and the row count |
| Sheets.PendingRowsSound | src/services/sheets.ts:56-66 | each company is that of a pending row, with its name, location and `i + 1` |
| Sheets.PendingRowsOrdered | src/services/sheets.ts:56-64 | row numbers strictly increase |
| Sheets.PendingRowsComplete | src/services/sheets.ts:56-66 | every pending data row is listed |
| Sheets.PendingCompanies | src/services/sheets.ts:42-43 | no table, or fewer than two rows, gives no companies; otherwise at most one per data row |
| Sheets.PendingCompaniesSpec | src/services/sheets.ts:42-69 | exactly the pending data rows, each listed, in sheet order |
| Sheets.GetPendingCompanies | src/services/sheets.ts:42-69 | the row loop computes `PendingCompanies` |
| Sheets.ListedIffPending | src/services/sheets.ts:58-60 | a row is left out iff its status cell is exactly `COMPLETADO` |
| Search.SearchQuery | src/services/search.ts:20 | the query is the quoted name followed by `site:*.com.ar OR site:*.com` |
| Search.SearchQueryInjective | src/services/search.ts:20 | the name can be read back from the query |
| Search.FirstWebsite | src/services/search.ts:24-35 | null iff no href is kept; otherwise the first kept href in page order |
| Search.WebsiteResult | src/services/search.ts:13-39 | throws "Browser not initialized" before `initialize`; page errors propagate; otherwise the first kept href of the results for the query |
| Search.UninitializedMakesNoRequest | src/services/search.ts:14 | before `initialize` nothing is loaded |
| Search.FoundWebsiteIsKept | src/services/search.ts:27-35 | a found website contains `.com` and none of the excluded names |
| Search.SearchService.constructor | src/services/search.ts:3-4 | a new service has no browser |
| Search.SearchService.Initialize | src/services/search.ts:6-11 | afterwards there is a fresh browser with no open page |
| Search.SearchService.FindCompanyWebsite | src/services/search.ts:13-39 | the page count is the same on every exit (the page is closed in `finally`), and the result is `WebsiteResult` |
| Maps.SearchPlaces | src/services/maps.ts:55-90 | the first candidate or null; a failure is rethrown as a PLACES_API_ERROR whose message embeds the original one |
| Maps.GeocodeAddress | src/services/maps.ts:92-126 | the first result or null; a failure, or a first result without geometry or location, gives a GEOCODING_API_ERROR |
| Maps.LocationQuery | src/services/maps.ts:128-145 | name, then the address if given, otherwise the location if non-empty, then "Argentina", separated by single spaces |
| Maps.LocationQueryShape | src/services/maps.ts:128-145 | the query starts with the name and a space and ends with " Argentina" |
| Maps.BuildLocationQuery | src/services/maps.ts:128-145 | the pushes onto `parts` compute `LocationQuery` |
| Maps.FindLocation | src/services/maps.ts:17-53 | no key gives null; a Places result is returned; otherwise the Geocoding result; any error gives null |
| Maps.NoKeyNoRequest | src/services/maps.ts:18-21 | without a key neither API is used |
| Maps.PlacesFirst | src/services/maps.ts:31-36 | a Places candidate is returned as is and Geocoding is not consulted |
| Maps.PlacesErrorIsFinal | src/services/maps.ts:31-52 | a failed Places request gives null without falling back |
| Maps.FirstCandidateOnly | src/services/maps.ts:69-117 | only the first candidate or result matters |
| Maps.ErrorsGiveNull | src/services/maps.ts:49-52 | an error from either lookup gives null, not a throw |
| Maps.GetPlaceDetails | src/services/maps.ts:153-173 | no key or a failed request gives null; otherwise the response's `result` |
| Maps.NoKeyNoDetailsRequest | src/services/maps.ts:154 | without a key no request is made |
| Maps.ConfiguredKey | src/services/maps.ts:10-15 | the configured key when non-empty, otherwise `''` |
| Maps.UnconfiguredKeyDisablesLookups | src/services/maps.ts:10-21 | with the key missing from the configuration, `findLocation` and `getPlaceDetails` both resolve null |

## Left out

- Regular expressions: the email, phone and address patterns and the company-suffix pattern of
  `cleanBusinessName` are not encoded. Their matches, and the suffix-stripped name, are inputs.
- Letter case: `ToLower` folds ASCII letters only. JavaScript's `toLowerCase` also folds non-ASCII
  letters, which only matters for the domain comparison and the keyword search.
- String length: lengths count Dafny characters, not UTF-16 code units. This matters only for text
  outside the Basic Multilingual Plane, and there it affects the 200-character address cut, the
  8-character phone minimum, and `Cuit.Dist` and `Cuit.Similarity`, which in JavaScript compare
  `charAt` code units and divide by `length`.
- Browser work is reduced to inputs and the open-page count. Not modelled: launching, `goto`, user
  agent, viewport, and registering the request handler (only its decision, `ShouldBlock`). Also not
  modelled: the `close()` methods of the search service and the enricher, and a failure of
  `page.close()` itself.
- `extractStructuredData`, `searchWithoutAPI` and `checkQuota` are not part of this model. The
  first two run inside the browser; the third returns a constant.
- Coordinates and `buildMapsUrl` are floating point, so `LocationData` keeps only the address and
  the place id.
- URL encoding: `encodeURIComponent` of the search URL is not modelled. The results page is a
  function of the unencoded query.
- `new URL(...).origin` is not parsed. The origin is part of the link-scan input, and a parse
  failure is a failed link scan.
- HTTP: timeouts and headers are not modelled. A response body that is not an array of search
  items is modelled as an empty list. A Places or Geocoding response without a body object is not
  modelled.
- `scrapeCUITFromAFIP` always returns null and is modelled as that null.
- Google Sheets I/O is not part of this model: authentication, `listSheets`, the value fetch and
  the empty `updateResults`. The fetched `values` is the input.
- Logging: console output is not modelled.
- Concurrency: every call is awaited in turn, so nothing runs concurrently.
- Helpers.Attempt: `None` and `Some` say which branch of the `try` produced the record, not whether a
  field is JavaScript `null`. When `fn` resolves to `null` or `undefined`, or throws one of them
  (`OtherThrown`), both fields of the JavaScript record are null-ish, so "exactly one field is set"
  holds of the model's branches only.
- Maps.ConfiguredKey: src/config.ts has no `googleMaps` entry, so as shipped the key is always `''`
  and `findLocation` and `getPlaceDetails` always resolve null (`UnconfiguredKeyDisablesLookups`).
  The configured value is a parameter so that the keyed branches are modelled too.
- Helpers.Attempt: "`fn` is invoked exactly once" is not stated as a contract. It holds by
  construction, because the model receives the single call's outcome as one parameter.
- Drivers and other files are not part of this model: the CLI and drivers (src/index.ts,
  src/test-urls.ts, src/utils/input.ts), the unused src/services/scrapper.ts and the constants of
  src/config.ts.
- Similarity is computed in exact `real` arithmetic instead of IEEE doubles. The 0.8 threshold is
  compared exactly.

## Findings

| source | as written | input that shows it | evidently intended | confidence | as-written member | corrected member |
|---|---|---|---|---|---|---|
| src/enricher.ts:11 | `new ScraperService(this.searchService)` passes the search service as the scraper's browser. `SearchService` has no `newPage`, so `extractContacts` throws a `TypeError` at src/services/scraper.ts:16, outside its `try`, and `enrichCompany`'s `catch` records FAILED with `{}` | any company whose website search returns a URL, such as `https://acme.com.ar`, even when that site shows both an email and a phone | the scraper works on the launched puppeteer browser, so the scraped email and phone decide the status | not executed | Enricher.AsWiredAlwaysFails | Enricher.CorrectedWiringClassifies |
