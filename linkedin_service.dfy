/** The scraping entry points of the LinkedIn service, with the network, the
    environment and the file system taken out: `scrapeLinkedInProfile`
    receives the API key the environment holds, `scrapeProfileWithApi`
    receives the provider as a function from request to fetch outcome, and
    `getMockLinkedInProfile` receives the records its JSON file parses to.
    Each returns the requests it issued beside its result, so that "fails
    before any request" can be stated. A thrown error is `Failure(message)`. */
module LinkedInService {
  import opened Wrappers
  import opened JsBuiltins
  import opened LinkedInTypes
  import opened LinkedInUrl
  import opened ProfileNormalizer

  const MissingApiKeyMessage: string := "SCRAPINGDOG_API_KEY environment variable is not set"
  const NoProfileDataMessage: string := "No profile data returned from ScrapingDog API"
  const NoMockDataMessage: string := "No profile data found in mock file."
  const ApiErrorPrefix: string := "ScrapingDog API error: "
  /** The profile URL the mock path reports, as the mock file has none. */
  const MockProfileUrl: string := "https://www.linkedin.com/in/mock-profile/"

  /** The query of the GET request: `api_key`, `type=profile` and `linkId`. */
  datatype ScrapeRequest = ScrapeRequest(apiKey: string, linkId: string)

  /** What `fetch` and `response.json()` produce: a rejected fetch, or a
      response with its status and its body parsed as an array of records
      (`None` when the body is `null`). As with `fetch`, `ok` holds exactly
      when `200 <= status <= 299`; the decision reads `ok` alone. */
  datatype FetchOutcome =
    | NetworkError(message: string)
    | Response(ok: bool, status: nat, statusText: string, body: Option<seq<ProviderProfile>>)

  /** The requests issued, in order, and the outcome. */
  datatype Scrape = Scrape(requests: seq<ScrapeRequest>, result: Result<Profile, string>)

  /** `` `ScrapingDog API error: ${response.status} ${response.statusText}` `` */
  function ApiErrorMessage(status: nat, statusText: string): string {
    ApiErrorPrefix + NatToString(status) + " " + statusText
  }

  /** What `scrapeProfileWithApi` does once the provider has answered. */
  function HandleResponse(outcome: FetchOutcome, linkedinUrl: string): Result<Profile, string> {
    match outcome
    case NetworkError(message) => Failure(message)
    case Response(ok, status, statusText, body) =>
      if !ok then Failure(ApiErrorMessage(status, statusText))
      else if body.None? || |body.value| == 0 then Failure(NoProfileDataMessage)
      else Success(TransformToLinkedInProfile(body.value[0], linkedinUrl))
  }

  /** `scrapeProfileWithApi(linkedinUrl, apiKey)` */
  function ScrapeProfileWithApi(linkedinUrl: string, apiKey: string, fetch: ScrapeRequest -> FetchOutcome): Scrape {
    match ExtractLinkId(linkedinUrl)
    case Failure(message) => Scrape([], Failure(message))
    case Success(linkId) =>
      var request := ScrapeRequest(apiKey, linkId);
      Scrape([request], HandleResponse(fetch(request), linkedinUrl))
  }

  /** `scrapeLinkedInProfile(url)`, with `apiKey` the value of
      `SCRAPINGDOG_API_KEY` (`None` when it is not set). */
  function ScrapeLinkedInProfile(url: string, apiKey: Option<string>, fetch: ScrapeRequest -> FetchOutcome): Scrape {
    if !Truthy(apiKey) then Scrape([], Failure(MissingApiKeyMessage))
    else ScrapeProfileWithApi(url, apiKey.value, fetch)
  }

  /** `getMockLinkedInProfile()`, given what its JSON file parses to. */
  function GetMockLinkedInProfile(records: Option<seq<ProviderProfile>>): Result<Profile, string> {
    if records.None? || |records.value| == 0 then Failure(NoMockDataMessage)
    else Success(TransformToLinkedInProfile(records.value[0], MockProfileUrl))
  }

  // ---------------------------------------------------------------------
  // Properties

  /** The provider's answer decides the outcome: a rejected fetch passes its
      error on, a non-ok status is an error naming the status, an empty or
      `null` body is an error, and otherwise the first record alone is
      normalised, with the caller's URL. */
  lemma HandleResponseOutcomes(outcome: FetchOutcome, linkedinUrl: string)
    ensures var r := HandleResponse(outcome, linkedinUrl);
            && (outcome.NetworkError? ==> r == Failure(outcome.message))
            && (outcome.Response? && !outcome.ok ==> r == Failure(ApiErrorMessage(outcome.status, outcome.statusText)))
            && (outcome.Response? && outcome.ok && (outcome.body.None? || outcome.body.value == []) ==>
                  r == Failure(NoProfileDataMessage))
            && (r.Success? <==> outcome.Response? && outcome.ok && outcome.body.Some? && outcome.body.value != [])
            && (r.Success? ==> r.value == TransformToLinkedInProfile(outcome.body.value[0], linkedinUrl)
                               && r.value.profileUrl == linkedinUrl && IsNormalized(r.value))
  {
    if outcome.Response? && outcome.ok && outcome.body.Some? && outcome.body.value != [] {
      TransformIsNormalized(outcome.body.value[0], linkedinUrl);
    }
  }

  /** Records after the first are never looked at. */
  lemma OnlyFirstRecordCounts(ok: bool, status: nat, statusText: string, first: ProviderProfile,
                              rest1: seq<ProviderProfile>, rest2: seq<ProviderProfile>, linkedinUrl: string)
    ensures HandleResponse(Response(ok, status, statusText, Some([first] + rest1)), linkedinUrl)
         == HandleResponse(Response(ok, status, statusText, Some([first] + rest2)), linkedinUrl)
  {
  }

  /** The status code can be read back from an API error message: the digits
      right after the prefix are its decimal numeral. */
  lemma ApiErrorCarriesStatus(status: nat, statusText: string)
    ensures var m := ApiErrorMessage(status, statusText);
            var digits := NatToString(status);
            && |ApiErrorPrefix| + |digits| < |m|
            && m[|ApiErrorPrefix|..|ApiErrorPrefix| + |digits|] == digits
            && DecimalValue(digits) == status
            && m[|ApiErrorPrefix| + |digits|] == ' '
  {
    NatToStringRoundTrip(status);
    var m := ApiErrorMessage(status, statusText);
    var digits := NatToString(status);
    assert m == ApiErrorPrefix + digits + (" " + statusText);
  }

  /** A rate-limited request (HTTP 429) is reported with its status. */
  lemma RateLimitedResponse(linkedinUrl: string)
    ensures HandleResponse(Response(false, 429, "Too Many Requests", None), linkedinUrl)
         == Failure("ScrapingDog API error: 429 Too Many Requests")
  {
    assert NatToString(429) == "429" by {
      assert NatToString(4) == ['4'];
      assert NatToString(42) == ['4'] + ['2'];
      assert NatToString(429) == ['4'] + ['2'] + ['9'];
    }
    assert ApiErrorPrefix + "429" + " " + "Too Many Requests" == "ScrapingDog API error: 429 Too Many Requests";
  }

  /** A URL the validator rejects fails with the validation message before
      any request is issued; a valid one issues exactly one request, for the
      id segment of the URL, and the provider's answer decides the rest. */
  lemma ScrapeProfileWithApiOutcomes(linkedinUrl: string, apiKey: string, fetch: ScrapeRequest -> FetchOutcome)
    ensures var s := ScrapeProfileWithApi(linkedinUrl, apiKey, fetch);
            && (!IsValidLinkedInUrl(linkedinUrl) ==> s == Scrape([], Failure(InvalidUrlMessage)))
            && (IsValidLinkedInUrl(linkedinUrl) ==>
                  var request := ScrapeRequest(apiKey, ParseProfileUrl(linkedinUrl).id);
                  s == Scrape([request], HandleResponse(fetch(request), linkedinUrl)))
  {
    if IsValidLinkedInUrl(linkedinUrl) {
      ExtractLinkIdOfValid(linkedinUrl);
    }
  }

  /** A missing or empty API key fails before the URL is looked at and
      before any request; otherwise the key is passed through. */
  lemma ScrapeLinkedInProfileOutcomes(url: string, apiKey: Option<string>, fetch: ScrapeRequest -> FetchOutcome)
    ensures var s := ScrapeLinkedInProfile(url, apiKey, fetch);
            && (!Truthy(apiKey) ==> s == Scrape([], Failure(MissingApiKeyMessage)))
            && (Truthy(apiKey) ==> s == ScrapeProfileWithApi(url, apiKey.value, fetch))
            && |s.requests| <= 1
            && (s.requests != [] ==> s.requests[0].apiKey == apiKey.value && IsValidLinkedInUrl(url))
  {
    if Truthy(apiKey) {
      ScrapeProfileWithApiOutcomes(url, apiKey.value, fetch);
    }
  }

  /** End to end: with a key set, the profile of a well-formed URL is the
      normalised first record the provider returns for its id, reported
      under the URL the caller gave. */
  lemma ScrapeRoundTrip(p: ProfileUrl, apiKey: string, fetch: ScrapeRequest -> FetchOutcome, record: ProviderProfile)
    requires WellFormed(p) && apiKey != ""
    requires fetch(ScrapeRequest(apiKey, p.id)).Response? && fetch(ScrapeRequest(apiKey, p.id)).ok
    requires fetch(ScrapeRequest(apiKey, p.id)).body.Some?
    requires |fetch(ScrapeRequest(apiKey, p.id)).body.value| > 0
    requires fetch(ScrapeRequest(apiKey, p.id)).body.value[0] == record
    ensures ScrapeLinkedInProfile(ToUrl(p), Some(apiKey), fetch)
         == Scrape([ScrapeRequest(apiKey, p.id)], Success(TransformToLinkedInProfile(record, ToUrl(p))))
  {
    ExtractFromParts(p);
  }

  lemma MockProfileUrlText()
    ensures ToUrl(ProfileUrl(true, "mock-profile", true, None)) == MockProfileUrl
  {
    HeadText();
    assert "https://www.linkedin.com/in/" + "mock-profile" + ("/" + "") == MockProfileUrl;
  }

  /** The placeholder URL of the mock path is itself a valid profile URL. */
  lemma MockProfileUrlIsValid()
    ensures IsValidLinkedInUrl(MockProfileUrl)
    ensures ExtractLinkId(MockProfileUrl) == Success("mock-profile")
  {
    MockProfileUrlText();
    ExtractRoundTrip(true, "mock-profile", true, None);
  }

  /** The mock path fails on an empty or `null` file and otherwise normalises
      the first record under the placeholder URL. */
  lemma MockProfileOutcomes(records: Option<seq<ProviderProfile>>)
    ensures var r := GetMockLinkedInProfile(records);
            && (r.Failure? <==> records.None? || records.value == [])
            && (r.Failure? ==> r.error == NoMockDataMessage)
            && (r.Success? ==> r.value == TransformToLinkedInProfile(records.value[0], MockProfileUrl)
                               && r.value.profileUrl == MockProfileUrl && IsNormalized(r.value))
  {
    if records.Some? && records.value != [] {
      TransformIsNormalized(records.value[0], MockProfileUrl);
    }
  }
}
