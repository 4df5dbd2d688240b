/**
 * The rule-based validity score: a category from the prompt, a
 * category-scoped domain trust, the best similarity to the category's
 * reference texts and a fact-check score, averaged; a page whose fetched
 * text starts with "Error" scores 0.
 */
module ValidityPipeline {
  import opened Wrappers
  import opened Text
  import opened CategoryDetection

  const CheckMark: string := "\U{2705}"
  const WarningSign: string := "\U{26A0}\U{FE0F}"
  const CrossMark: string := "\U{274C}"

  /** `trusted_domain_categories` */
  const TrustedDomainCategories: map<string, seq<string>> := map[
    "travel" := ["tsa.gov", "faa.gov", "iata.org", "nyc.gov", "transportation.gov"],
    "health" := ["cdc.gov", "who.int", "nih.gov", "fda.gov"],
    "finance" := ["federalreserve.gov", "sec.gov", "imf.org"],
    "science" := ["nasa.gov", "mit.edu", "nature.com"]
  ]

  /** `trusted_domain_categories.get(category, [])` */
  function TrustedDomains(category: string): (domains: seq<string>)
    ensures category !in TrustedDomainCategories ==> domains == []
    ensures category in TrustedDomainCategories ==> domains == TrustedDomainCategories[category] && |domains| > 0
    ensures category == General ==> domains == []
  {
    if category in TrustedDomainCategories then TrustedDomainCategories[category] else []
  }

  datatype Verdict = Verdict(score: real, message: string)

  /**
   * `check_domain_credibility`, given the `domain.suffix` string that
   * `tldextract` extracts from the URL.
   */
  function CheckDomainCredibility(domain: string, category: string): (v: Verdict)
    ensures v.score in {1.0, 0.6, 0.3}
    ensures v.score == 1.0 <==> domain in TrustedDomains(category)
    ensures v.score == 0.6 <==>
      domain !in TrustedDomains(category) && (Contains(domain, "travel") || Contains(domain, "leisure"))
  {
    if domain in TrustedDomains(category) then
      Verdict(1.0, CheckMark + " Highly credible source: " + domain)
    else if Contains(domain, "travel") || Contains(domain, "leisure") then
      Verdict(0.6, WarningSign + " Source is a travel site (" + domain + "), may not be fully authoritative.")
    else
      Verdict(0.3, CrossMark + " Unverified source: " + domain + ", cross-check with official sources.")
  }

  /** A category without a trusted list, "general" among them, never reaches 1.0. */
  lemma UnlistedCategoryNeverFullyTrusted(domain: string, category: string)
    requires category !in TrustedDomainCategories
    ensures CheckDomainCredibility(domain, category).score < 1.0
  {
  }

  /**
   * The science list is dead: `detect_category` never yields "science" and
   * no other list shares a domain with it, so NASA, MIT and Nature are never
   * rated fully credible through the pipeline.
   */
  lemma ScienceDomainsNeverFullyTrusted(domain: string, prompt: string)
    requires domain in TrustedDomainCategories["science"]
    ensures CheckDomainCredibility(domain, DetectCategory(prompt)).score < 1.0
  {
  }

  /** `reference_texts` */
  const ReferenceTexts: map<string, seq<string>> := map[
    "travel" := [
      "The TSA and FAA regulate air travel and airport security.",
      "JFK, LaGuardia, and Newark are the main airports serving NYC.",
      "Official NYC airport website provides information on best airport choices."],
    "health" := [
      "The CDC and WHO provide guidelines on disease prevention.",
      "COVID-19 vaccines have been approved by the FDA.",
      "Medical research from NIH supports evidence-based treatments."],
    "finance" := [
      "The Federal Reserve regulates monetary policy in the U.S.",
      "Investment markets are monitored by the SEC and IMF.",
      "The IRS provides guidelines on tax regulations."],
    "science" := [
      "NASA conducts space exploration and scientific research.",
      "Climate change research is supported by MIT and NOAA.",
      "AI advancements are published in Nature and Science journals."]
  ]

  const NoReferencePlaceholder: string := "No reference texts available for this category."

  /** `get_dynamic_trusted_sources(category)` */
  function DynamicTrustedSources(category: string): (texts: seq<string>)
    ensures |texts| > 0
    ensures category !in ReferenceTexts ==> texts == [NoReferencePlaceholder]
    ensures category in ReferenceTexts ==> texts == ReferenceTexts[category]
    ensures category in ReferenceTexts ==> |texts| == 3 && NoReferencePlaceholder !in texts
  {
    if category in ReferenceTexts then ReferenceTexts[category] else [NoReferencePlaceholder]
  }

  /**
   * Through the pipeline, a "general" prompt is compared with the placeholder
   * sentence alone, and the science reference texts are never used.
   */
  lemma PipelineReferenceTexts(prompt: string)
    ensures DetectCategory(prompt) == General ==>
              DynamicTrustedSources(DetectCategory(prompt)) == [NoReferencePlaceholder]
    ensures DynamicTrustedSources(DetectCategory(prompt)) != ReferenceTexts["science"]
  {
  }

  /** What the HTTP request of `fetch_url_text` came back with. */
  datatype PageResponse =
    | PageRequestFailed
    | PageReply(status: int, visibleText: string)

  const FetchErrorSentinel: string := "Error fetching page."

  /** `fetch_url_text(url)` */
  function FetchUrlText(response: PageResponse): (text: string)
    ensures response.PageRequestFailed? || response.status != 200 ==> text == FetchErrorSentinel
    ensures response.PageReply? && response.status == 200 ==> text == response.visibleText
  {
    match response
    case PageRequestFailed => FetchErrorSentinel
    case PageReply(status, visible) => if status != 200 then FetchErrorSentinel else visible
  }

  /** A claim record of the fact-check reply; `text` is `None` when the key is missing. */
  datatype ClaimRecord = ClaimRecord(text: Option<string>)

  /**
   * What the fact-check request came back with: an exception before a
   * response (with its message), or a status and, for status 200, the
   * decoded body (`claims` is `None` when the key is missing).
   */
  datatype FactCheckResponse =
    | FactCheckRaised(error: string)
    | FactCheckReply(status: int, body: FactCheckBody)

  datatype FactCheckBody =
    | Undecodable(error: string)
    | Decoded(claims: Option<seq<ClaimRecord>>)

  /** A 200 reply whose first claim can be read: the only way to the 1.0 score. */
  predicate FactChecked(response: FactCheckResponse) {
    && response.FactCheckReply? && response.status == 200
    && response.body.Decoded? && response.body.claims.Some?
    && |response.body.claims.value| > 0 && response.body.claims.value[0].text.Some?
  }

  /** A completed reply with nothing to report: not 200, or no claims. */
  predicate NothingFound(response: FactCheckResponse) {
    && response.FactCheckReply?
    && (response.status != 200
        || (response.body.Decoded?
            && (response.body.claims.None? || |response.body.claims.value| == 0)))
  }

  /** `check_fact_claim(query)`, from the reply its request got. */
  function CheckFactClaim(response: FactCheckResponse): (v: Verdict)
    ensures v.score in {1.0, 0.5, 0.3}
    ensures v.score == 1.0 <==> FactChecked(response)
    ensures v.score == 0.5 <==> NothingFound(response)
    ensures v.score == 0.3 <==> !FactChecked(response) && !NothingFound(response)
  {
    match response
    case FactCheckRaised(e) => Verdict(0.3, CrossMark + " Error checking fact: " + e)
    case FactCheckReply(status, body) =>
      if status != 200 then Verdict(0.5, WarningSign + " No fact-checks found for this claim.")
      else match body
        case Undecodable(e) => Verdict(0.3, CrossMark + " Error checking fact: " + e)
        case Decoded(None) => Verdict(0.5, WarningSign + " No fact-checks found for this claim.")
        case Decoded(Some(claims)) =>
          if |claims| == 0 then Verdict(0.5, WarningSign + " No fact-checks found for this claim.")
          else match claims[0].text
            case Some(t) => Verdict(1.0, CheckMark + " This information has been fact-checked: " + t)
            // `data['claims'][0]['text']` raises KeyError, whose message is the quoted key
            case None => Verdict(0.3, CrossMark + " Error checking fact: 'text'")
  }

  /** The collaborators of `evaluate_article_validity`. */
  datatype ValidityServices = ValidityServices(
    /** `tldextract`'s `domain.suffix` of a URL */
    registeredDomain: string -> string,
    /** the HTTP request of `fetch_url_text` */
    requestPage: string -> PageResponse,
    /** `compare_text_similarity`: highest embedding cosine similarity */
    maxSimilarity: (string, seq<string>) -> real,
    /** the fact-check request for a query */
    factCheckApi: string -> FactCheckResponse)

  /**
   * `evaluate_article_validity`'s return: the zero score with the fetch
   * error, or the assessed score with the parts its explanation reports.
   */
  datatype Validity =
    | FetchFailed(score: real, explanation: string)
    | Assessed(score: real, category: string, domain: Verdict, similarity: real, factCheck: Verdict)

  /** `evaluate_article_validity(url, user_prompt)` */
  function EvaluateArticleValidity(svc: ValidityServices, url: string, prompt: string): (v: Validity)
    ensures v.FetchFailed? <==> IsPrefix("Error", FetchUrlText(svc.requestPage(url)))
    ensures v.FetchFailed? ==> v.score == 0.0
    ensures v.Assessed? ==> v.score == (v.domain.score + v.similarity + v.factCheck.score) / 3.0
    ensures v.Assessed? ==>
      && v.category == DetectCategory(prompt)
      && v.domain == CheckDomainCredibility(svc.registeredDomain(url), v.category)
      && v.similarity == svc.maxSimilarity(FetchUrlText(svc.requestPage(url)), DynamicTrustedSources(v.category))
      && v.factCheck == CheckFactClaim(svc.factCheckApi(prompt))
  {
    var category := DetectCategory(prompt);
    var domain := CheckDomainCredibility(svc.registeredDomain(url), category);
    var articleText := FetchUrlText(svc.requestPage(url));
    if IsPrefix("Error", articleText) then
      FetchFailed(0.0, CrossMark + " Error fetching article content: " + articleText)
    else
      var references := DynamicTrustedSources(category);
      var similarity := svc.maxSimilarity(articleText, references);
      var factCheck := CheckFactClaim(svc.factCheckApi(prompt));
      Assessed((domain.score + similarity + factCheck.score) / 3.0, category, domain, similarity, factCheck)
  }

  /**
   * A failed request or a non-200 status scores 0, because the fetcher's
   * sentinel starts with "Error"; so does a page whose own text starts with
   * "Error".
   */
  lemma FetchFailureScoresZero(svc: ValidityServices, url: string, prompt: string)
    requires || svc.requestPage(url).PageRequestFailed?
             || svc.requestPage(url).status != 200
             || IsPrefix("Error", svc.requestPage(url).visibleText)
    ensures EvaluateArticleValidity(svc, url, prompt).score == 0.0
  {
    assert IsPrefix("Error", FetchUrlText(svc.requestPage(url)));
  }

  /**
   * Otherwise the score is the mean of the three sub-scores, each computed
   * from the prompt's category.
   */
  lemma ScoreIsMeanOfSubScores(svc: ValidityServices, url: string, prompt: string)
    requires !IsPrefix("Error", FetchUrlText(svc.requestPage(url)))
    ensures var category := DetectCategory(prompt);
      var text := FetchUrlText(svc.requestPage(url));
      EvaluateArticleValidity(svc, url, prompt).score ==
        (CheckDomainCredibility(svc.registeredDomain(url), category).score
         + svc.maxSimilarity(text, DynamicTrustedSources(category))
         + CheckFactClaim(svc.factCheckApi(prompt)).score) / 3.0
  {
  }

  /**
   * With a cosine similarity in [-1, 1], the score lies in [-2/15, 1]; with
   * one in [0, 1], an assessed page scores in [1/5, 1], above every fetch
   * failure.
   */
  lemma ScoreRange(svc: ValidityServices, url: string, prompt: string)
    requires forall t, refs :: -1.0 <= svc.maxSimilarity(t, refs) <= 1.0
    ensures var s := EvaluateArticleValidity(svc, url, prompt).score;
      -2.0 / 15.0 <= s <= 1.0
    ensures (forall t, refs :: 0.0 <= svc.maxSimilarity(t, refs)) ==>
      var v := EvaluateArticleValidity(svc, url, prompt);
      v.Assessed? ==> 0.2 <= v.score <= 1.0
  {
  }
}
