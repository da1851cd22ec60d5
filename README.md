# LinkedIn profile service, modelled in Dafny

This project models the LinkedIn part of an application that turns a
LinkedIn profile into a comic story: `features/linkedin/service.ts`. It
covers these parts:

- **URL validation** (`isValidLinkedInUrl`). The anchored pattern
  `^https://(www\.)?linkedin\.com/in/[a-zA-Z0-9-]+/?(\?.*)?$` is written by
  hand as the predicate `LinkedInUrl.IsValidLinkedInUrl`. JavaScript's `.`
  does not match line terminators, and the model keeps that.
- **Id extraction** (`extractLinkId`). `LinkedInUrl.ExtractLinkId` returns a
  `Result`. A thrown error becomes `Failure(message)` with the same message.
  The search `/\/in\/([^\/\?]+)/` is modelled as a leftmost search
  (`MatchFrom`).
- **Normalisation** (`transformToLinkedInProfile`). The provider's raw
  record becomes the application's profile (`ProfileNormalizer`). The
  JavaScript idioms are spelled out in `JsBuiltins`:
  - `x || d` on strings;
  - `x || undefined`;
  - `arr || []`;
  - `.map`;
  - `.trim()` with the ECMAScript white-space and line-terminator set;
  - number rendering in template literals.
- **Scraping decisions** (`scrapeLinkedInProfile`, `scrapeProfileWithApi`,
  `getMockLinkedInProfile`) are in `LinkedInService`:
  - The environment's API key is a parameter.
  - The provider call is a function from request to fetch outcome.
  - The mock file is the list of records it parses to.
  - Each scrape returns the requests it issued beside its result, so "fails
    before any request" can be stated.

The record types of `features/linkedin/types.ts` are the datatypes in
`LinkedInTypes`. A provider field that may be missing, `null` or empty is an
`Option<string>`. The normaliser treats `None` and `Some("")` alike, as
JavaScript's `||` does.

The main results:

- **The validator is the pattern.** It accepts exactly the URLs built from
  well-formed parts, and a valid URL splits into those parts in exactly one
  way.
- **Extraction matches validation.** Extraction fails exactly on rejected
  URLs, with the validation message. On every accepted URL it returns the
  id segment, so the "could not extract" branch is unreachable.
- **Normalised shape.** Every normalised profile keeps the caller's URL and
  the provider's list lengths and order, and has no empty optional fields.
- **Durations.** An education duration always contains `-`, so its
  `|| ''` never takes effect. An experience without its own duration gets
  the trimmed date range.
- **Not lossless.** Normalisation is not lossless: the code folds an
  education's start and end dates into one trimmed string, and
  `ProfileNormalizer.EducationDatesAmbiguous` shows two different entries
  that normalise to the same entry. `CompleteRecordPreserved` states what
  is carried over unchanged.

## Model

| member | source | states |
|---|---|---|
| LinkedInUrl.IdRunLength | features/linkedin/service.ts:34 | the greedy `[a-zA-Z0-9-]+` run: every character before it is an id character and the next one is not |
| LinkedInUrl.ParseTail | features/linkedin/service.ts:34 | a string matching `[a-zA-Z0-9-]+\/?(\?.*)?$` splits into a well-formed id, optional `/` and optional query that rebuild it |
| LinkedInUrl.ParseProfileUrl | features/linkedin/service.ts:33-36 | every accepted URL is the URL built from well-formed parts (`www.` choice, id, slash, query) |
| LinkedInUrl.ValidatorAcceptsParts | features/linkedin/service.ts:33-36 | every URL built from well-formed parts is accepted |
| LinkedInUrl.ValidatorMatchesPattern | features/linkedin/service.ts:33-36 | the validator accepts a URL if and only if some well-formed parts build it |
| LinkedInUrl.ParseToUrl | features/linkedin/service.ts:34 | parsing a built URL gives back exactly the parts it was built from |
| LinkedInUrl.PartsDetermined | features/linkedin/service.ts:34 | two well-formed part lists that build the same URL are equal |
| LinkedInUrl.TailDetermined | features/linkedin/service.ts:34 | the text after `/in/` fixes the id, the trailing slash and the query |
| LinkedInUrl.ValidatorJudgesTail | features/linkedin/service.ts:34 | after the scheme and either host, a URL is accepted if and only if the rest is an id with optional `/` and query |
| LinkedInUrl.RejectsHttp | features/linkedin/service.ts:34 | `http://linkedin.com/in/jane` is rejected |
| LinkedInUrl.RejectsUpperCase | features/linkedin/service.ts:34 | `HTTPS://LINKEDIN.COM/in/jane` is rejected: matching is case-sensitive |
| LinkedInUrl.RejectsOtherHost | features/linkedin/service.ts:34 | `https://uk.linkedin.com/in/jane` is rejected |
| LinkedInUrl.RejectsOtherPath | features/linkedin/service.ts:34 | `https://linkedin.com/company/acme` is rejected: the path must be `/in/` |
| LinkedInUrl.RejectsEmptyId | features/linkedin/service.ts:34 | `https://linkedin.com/in/` is rejected: the id is not empty |
| LinkedInUrl.RejectsForeignIdChar | features/linkedin/service.ts:34 | `https://linkedin.com/in/jane_doe` is rejected: `_` is not an id character |
| LinkedInUrl.RejectsExtraSegment | features/linkedin/service.ts:34 | `https://linkedin.com/in/jane/details` is rejected: no further path segment |
| LinkedInUrl.RejectsBareFragment | features/linkedin/service.ts:34 | `https://linkedin.com/in/jane#about` is rejected: `#` is allowed only inside a query |
| LinkedInUrl.RejectsLineBreakInQuery | features/linkedin/service.ts:34 | a query holding a line feed is rejected: `.` does not match line terminators |
| LinkedInUrl.RejectedTail | features/linkedin/service.ts:34 | behind `https://linkedin.com/in/` or `https://www.linkedin.com/in/`, an id followed by anything other than an optional `/` and a query is rejected |
| LinkedInUrl.AcceptedQueryWithHash | features/linkedin/service.ts:34 | `https://linkedin.com/in/jane/?ref=x#top` is accepted |
| LinkedInUrl.CaptureLength | features/linkedin/service.ts:20 | the greedy `[^\/\?]+` run: no `/` or `?` inside it, and one right after it unless the string ends |
| LinkedInUrl.MatchFrom | features/linkedin/service.ts:20 | a match's group is non-empty and holds neither `/` nor `?` |
| LinkedInUrl.MatchFromLeftmost | features/linkedin/service.ts:20 | the search succeeds if and only if `/in/` followed by a non-`/`, non-`?` character occurs from the start position on, and then returns the greedy `[^\/\?]+` run after the leftmost such `/in/` |
| LinkedInUrl.MatchFromSkips | features/linkedin/service.ts:20 | the leftmost search passes over positions where the pattern does not match |
| LinkedInUrl.MatchAfterHead | features/linkedin/service.ts:20 | after a prefix with no `/` followed by `i`, the leftmost match is the first `/in/` and its group is the following run |
| LinkedInUrl.MatchInParts | features/linkedin/service.ts:20-25 | in a built URL the leftmost match's group is exactly the id |
| LinkedInUrl.ExtractLinkId | features/linkedin/service.ts:15-18 | a rejected URL fails with "Invalid LinkedIn URL provided" |
| LinkedInUrl.ExtractFailsOnlyOnInvalid | features/linkedin/service.ts:15-26 | extraction fails if and only if the URL is rejected, and then with the validation message |
| LinkedInUrl.ExtractLinkIdOfValid | features/linkedin/service.ts:20-25 | on an accepted URL extraction succeeds with the parsed id: non-empty, only letters, digits and `-`, slash and query stripped |
| LinkedInUrl.ExtractRoundTrip | features/linkedin/service.ts:15-36 | any well-formed id, with or without `www.`, trailing `/` and query, builds an accepted URL from which extraction returns that id |
| LinkedInUrl.ExampleProfileUrl | tests/linkedin/scraper-test.js:5-18 | `https://www.linkedin.com/in/seid-adem-682a3b17a/` yields `seid-adem-682a3b17a` |
| JsBuiltins.LeadingWhitespace | features/linkedin/service.ts:53 | the white-space run at the start: all white space, followed by a non-white-space character or the end |
| JsBuiltins.TrailingWhitespace | features/linkedin/service.ts:53 | the white-space run at the end, measured the same way |
| JsBuiltins.TrimCharacterization | features/linkedin/service.ts:53 | `.trim()` gives exactly the slice with only white space around it that is empty or starts and ends with a non-white-space character |
| JsBuiltins.TrimKeepsNonWhitespace | features/linkedin/service.ts:62 | a non-white-space character survives trimming, so the result is not empty |
| JsBuiltins.Map | features/linkedin/service.ts:50-63 | `.map` keeps length and order and applies the callback to each element |
| JsBuiltins.MapAfterMap | features/linkedin/service.ts:50-63 | two maps in a row equal one map of the composed callback |
| JsBuiltins.NatToString | features/linkedin/service.ts:98 | a number in a template literal renders as a non-empty string of digits |
| JsBuiltins.NatToStringRoundTrip | features/linkedin/service.ts:98 | the rendering reads back as the number and has no leading zero |
| ProfileNormalizer.DateRangeKeepsSeparator | features/linkedin/service.ts:53 | a trimmed `starts - ends` range always holds `-`, whatever dates are missing |
| ProfileNormalizer.ExperienceDuration | features/linkedin/service.ts:53 | an experience's duration is the provider's when non-empty, otherwise the date range; never empty |
| ProfileNormalizer.EducationDuration | features/linkedin/service.ts:62 | an education's duration is always the date range and holds `-`: the empty-string fallback never applies |
| ProfileNormalizer.TransformIsNormalized | features/linkedin/service.ts:44-70 | profileUrl is the caller's, skills are empty, lists keep the provider's length and order entry by entry, durations are non-empty and optional fields are absent or non-empty |
| ProfileNormalizer.EmptyRecordDefaults | features/linkedin/service.ts:44-70 | a record with every field missing gives empty strings and lists, no optional fields and the caller's URL |
| ProfileNormalizer.CompleteRecordPreserved | features/linkedin/service.ts:44-68 | with every copied field present and non-empty, names, texts and optional fields are copied unchanged, experience entries are copied unchanged, and education entries keep school, degree and field of study |
| ProfileNormalizer.EducationDatesAmbiguous | features/linkedin/service.ts:58-63 | two different education entries normalise to the same entry: the dates cannot be recovered |
| ProfileNormalizer.ExperienceIgnoresEmpty | features/linkedin/service.ts:50-57 | an experience entry normalises the same with empty strings replaced by missing values |
| ProfileNormalizer.EducationIgnoresEmpty | features/linkedin/service.ts:58-63 | an education entry normalises the same with empty strings replaced by missing values |
| ProfileNormalizer.MissingAndEmptyAgree | features/linkedin/service.ts:44-70 | the whole record normalises the same with every empty string replaced by a missing value |
| LinkedInService.HandleResponseOutcomes | features/linkedin/service.ts:89-111 | a rejected fetch passes its error on; a non-ok status fails with the status message; a null or empty body fails with "No profile data returned from ScrapingDog API"; success iff ok with a non-empty body, and then the first record normalised under the caller's URL |
| LinkedInService.OnlyFirstRecordCounts | features/linkedin/service.ts:107 | records after the first never change the outcome |
| LinkedInService.ApiErrorCarriesStatus | features/linkedin/service.ts:98 | the status can be read back from the error message, right after `ScrapingDog API error: ` |
| LinkedInService.RateLimitedResponse | features/linkedin/service.ts:97-99 | a 429 "Too Many Requests" response fails with `ScrapingDog API error: 429 Too Many Requests` |
| LinkedInService.ScrapeProfileWithApiOutcomes | features/linkedin/service.ts:79-107 | a rejected URL fails with the validation message before any request; an accepted one issues exactly one request, with the key and the URL's id |
| LinkedInService.ScrapeLinkedInProfileOutcomes | features/linkedin/service.ts:120-128 | a missing or empty key fails before any request; otherwise the key is passed on, at most one request is issued, and only for an accepted URL |
| LinkedInService.ScrapeRoundTrip | features/linkedin/service.ts:79-128 | with a key, a well-formed URL whose provider answer is ok and non-empty gives that answer's first record, normalised under the URL |
| LinkedInService.MockProfileUrlIsValid | features/linkedin/service.ts:148-149 | the mock placeholder URL is accepted and yields the id `mock-profile` |
| LinkedInService.MockProfileOutcomes | features/linkedin/service.ts:136-150 | the mock path fails with "No profile data found in mock file." if and only if the file holds no records, and otherwise normalises the first under the placeholder URL |

## Left out

- Network: the HTTP request to the provider (`fetch`, the base URL, the `Accept` header, the `URLSearchParams` encoding) is left out. The request is the `ScrapeRequest` datatype, and the provider is a function parameter.
- Environment: reading `SCRAPINGDOG_API_KEY` from the environment is a parameter of `ScrapeLinkedInProfile`.
- File system: reading and JSON-parsing the mock file is left out. `GetMockLinkedInProfile` receives the parsed records. A read or parse failure and a body that is not an array are not modelled.
- `response.json()` failing, or returning something other than an array or `null`, is not modelled; the body is `None` (null) or a list of records.
- Logging: `console.error` before a rethrow has no effect on the result and is left out.
- Promises: the async functions are modelled as functions that return their result.
- `features/linkedin/actions.ts` is a try/catch wrapper over the scrape and is not part of this model. The story generator, the art generator, the image utilities, the UI pages and components, and the test scripts are not part of it either; they are calls to external services or presentation.
- Unicode: strings are sequences of code points. The `Zs` members of ECMAScript's white-space set are listed as of current Unicode; a later Unicode version may add others.
- Thrown values: a rejected fetch's error is modelled as its message string, not as the error object that is rethrown.
