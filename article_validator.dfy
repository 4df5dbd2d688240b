/**
 * The decision logic of `ArticleValidator`: the fallback guards around each
 * signal, the weighted final score and the assembly of the result record in
 * `rate_url_content`. Everything that reaches outside the process (page
 * download, the readability formula, the credibility classifier, TF-IDF
 * similarity, the Moz API) is a field of `Services`.
 */
module ArticleValidator {
  import opened Wrappers
  import opened UrlValidation
  import opened StarRating

  /** What `__init__` leaves behind: the Moz credentials and whether the classifier loaded. */
  datatype ValidatorConfig = ValidatorConfig(
    mozAccessId: Option<string>,
    mozSecretKey: Option<string>,
    modelLoaded: bool)

  /**
   * Reply of the Moz `url_metrics` call. `MozReply.results` is `None` when
   * the body has no `"results"` key; each entry is the entry's
   * `"domain_authority"`, `None` when that key is missing or null.
   */
  datatype MozResponse =
    | MozRequestFailed
    | MozReply(results: Option<seq<Option<real>>>)

  datatype Services = Services(
    /** `get_article_text`: extracted paragraph text, `None` on a failed request or empty page */
    fetchArticleText: string -> Option<string>,
    /** `textstat.flesch_reading_ease` */
    fleschReadingEase: string -> real,
    /** softmax probability of the "credible" class; `None` when inference raises */
    classifyCredible: string -> Option<real>,
    /** TF-IDF cosine similarity of query and text; `None` when the vectorizer raises */
    tfidfCosine: (string, string) -> Option<real>,
    /** the Moz `url_metrics` request for a URL */
    mozUrlMetrics: string -> MozResponse)

  /** Python truthiness of an optional string: neither `None` nor empty. */
  predicate Truthy(s: Option<string>) {
    s.Some? && s.value != ""
  }

  /** `get_readability_score(text)` */
  function ReadabilityScore(svc: Services, text: string): (r: real)
    ensures text == "" ==> r == 0.0
    ensures text != "" ==> r == svc.fleschReadingEase(text)
  {
    if text != "" then svc.fleschReadingEase(text) else 0.0
  }

  /** `analyze_credibility(text)` */
  function CredibilityScore(cfg: ValidatorConfig, svc: Services, text: string): (r: real)
    ensures !cfg.modelLoaded || text == "" ==> r == 0.5
    ensures r == 0.5 || (cfg.modelLoaded && text != "" && svc.classifyCredible(text) == Some(r))
    ensures cfg.modelLoaded && text != "" && svc.classifyCredible(text).Some? ==>
              r == svc.classifyCredible(text).value
  {
    if !cfg.modelLoaded || text == "" then 0.5
    else match svc.classifyCredible(text)
      case Some(p) => p
      case None => 0.5
  }

  /** `calculate_relevance(query, article_text)`; `None` is the uncaught vectorizer error. */
  function RelevanceScore(svc: Services, query: string, text: string): (r: Option<real>)
    ensures text == "" ==> r == Some(0.0)
    ensures text != "" ==> r == svc.tfidfCosine(query, text)
  {
    if text == "" then Some(0.0) else svc.tfidfCosine(query, text)
  }

  /** `data.get("results", [{}])[0].get("domain_authority", None)`, with the `except` branch. */
  function DomainAuthority(response: MozResponse): (r: Option<real>)
    ensures r.Some? ==>
              && response.MozReply? && response.results.Some?
              && |response.results.value| > 0 && response.results.value[0] == r
    ensures response.MozReply? && response.results.Some? && |response.results.value| > 0 ==>
              r == response.results.value[0]
  {
    match response
    case MozRequestFailed => None
    case MozReply(None) => None
    case MozReply(Some(entries)) => if |entries| == 0 then None else entries[0]
  }

  /** `get_moz_domain_score(url)` */
  function MozDomainScore(cfg: ValidatorConfig, svc: Services, url: string): (r: Option<real>)
    ensures !Truthy(cfg.mozAccessId) || !Truthy(cfg.mozSecretKey) ==> r == None
    ensures Truthy(cfg.mozAccessId) && Truthy(cfg.mozSecretKey) ==>
              r == DomainAuthority(svc.mozUrlMetrics(url))
  {
    if !Truthy(cfg.mozAccessId) || !Truthy(cfg.mozSecretKey) then None
    else DomainAuthority(svc.mozUrlMetrics(url))
  }

  /** `domain_trust or 0` */
  function TrustOrZero(domainTrust: Option<real>): (trust: real)
    ensures domainTrust.None? ==> trust == 0.0
    ensures domainTrust.Some? ==> trust == domainTrust.value
  {
    if domainTrust.Some? then domainTrust.value else 0.0
  }

  /**
   * The weighted final score of `rate_url_content`, on the mixed scales the
   * source uses. Per unit of each input, the effective weights are 0.4 for
   * the 0-100 domain authority, 0.002 for a Flesch point, 30 for relevance
   * and 20 for credibility.
   */
  function FinalScore(domainTrust: Option<real>, readability: real, relevance: real, credibility: real): (score: real)
    ensures score == 0.4 * TrustOrZero(domainTrust) + 0.002 * readability + 30.0 * relevance + 20.0 * credibility
  {
    TrustOrZero(domainTrust) * 0.4 + (readability / 100.0) * 0.2
      + (relevance * 100.0) * 0.3 + (credibility * 100.0) * 0.2
  }

  const LowestIcon: string := "\U{2B50}\U{2606}\U{2606}\U{2606}\U{2606}"
  const InvalidUrlMessage: string := "Invalid or suspicious URL."
  const NoContentMessage: string := "No readable content found."

  /**
   * The dictionary `rate_url_content` returns: the four-key record of the
   * early exits, the full record, or the vectorizer's exception escaping.
   */
  datatype RateResult =
    | ShortResult(url: string, rating: int, icon: string, explanation: string)
    | FullResult(
        url: string,
        domainTrust: Option<real>,
        readability: real,
        relevanceScore: real,
        credibilityScore: real,
        finalRating: real,
        rating: int,
        icon: string,
        explanation: string)
    | RelevanceRaised(url: string)

  /** `rate_url_content(url, query)` */
  function RateUrlContent(cfg: ValidatorConfig, svc: Services, url: string, query: string): (r: RateResult)
    ensures r.url == url
    ensures !r.RelevanceRaised? ==> 1 <= r.rating <= 5 && r.icon == Stars(r.rating)
    ensures r.ShortResult? ==> r.rating == 1
    ensures r.FullResult? ==> r.explanation == Explanations[r.rating]
  {
    if !IsValidUrl(url) then
      ShortResult(url, 1, LowestIcon, InvalidUrlMessage)
    else
      var fetched := svc.fetchArticleText(url);
      if fetched.None? || fetched.value == "" then
        ShortResult(url, 1, LowestIcon, NoContentMessage)
      else
        var text := fetched.value;
        var readability := ReadabilityScore(svc, text);
        var credibility := CredibilityScore(cfg, svc, text);
        var relevance := RelevanceScore(svc, query, text);
        if relevance.None? then RelevanceRaised(url)
        else
          var domainTrust := MozDomainScore(cfg, svc, url);
          var finalScore := FinalScore(domainTrust, readability, relevance.value, credibility);
          var stars := ConvertScoreToRating(finalScore);
          FullResult(url, domainTrust, readability, relevance.value, credibility,
                     finalScore, stars.rating, stars.stars, stars.explanation)
  }

  /** The hard-coded icon of the early exits is the one-star string of the rating mapper. */
  lemma LowestIconIsOneStar()
    ensures LowestIcon == Stars(1) == ConvertScoreToRating(0.0).stars
  {
  }

  /**
   * An invalid URL gets the lowest rating and the invalid-URL message, and
   * nothing any collaborator would return (the download included) can change
   * that: the decision comes before any request.
   */
  lemma InvalidUrlDecidedBeforeFetch(cfg: ValidatorConfig, svc1: Services, svc2: Services, url: string, query: string)
    requires !IsValidUrl(url)
    ensures RateUrlContent(cfg, svc1, url, query) == ShortResult(url, 1, Stars(1), InvalidUrlMessage)
    ensures RateUrlContent(cfg, svc1, url, query) == RateUrlContent(cfg, svc2, url, query)
  {
  }

  /**
   * With nothing readable fetched, the result is the lowest rating with the
   * no-content message, whatever the signal providers would have said.
   */
  lemma NoContentSkipsSignals(cfg: ValidatorConfig, svc1: Services, svc2: Services, url: string, query: string)
    requires IsValidUrl(url)
    requires svc1.fetchArticleText(url) == svc2.fetchArticleText(url)
    requires svc1.fetchArticleText(url) in {None, Some("")}
    ensures RateUrlContent(cfg, svc1, url, query) == ShortResult(url, 1, Stars(1), NoContentMessage)
    ensures RateUrlContent(cfg, svc1, url, query) == RateUrlContent(cfg, svc2, url, query)
  {
  }

  /**
   * On the full path the final rating is the weighted sum of the four
   * signals, a missing domain trust counting as 0, the readability score
   * divided by 100, and relevance and credibility multiplied by 100; the
   * rating, icon and explanation are the rating mapper's for that sum.
   */
  lemma FullPathScore(cfg: ValidatorConfig, svc: Services, url: string, query: string, text: string)
    requires IsValidUrl(url)
    requires svc.fetchArticleText(url) == Some(text) && text != ""
    requires svc.tfidfCosine(query, text).Some?
    ensures var r := RateUrlContent(cfg, svc, url, query);
      var dt := MozDomainScore(cfg, svc, url);
      var flesch := svc.fleschReadingEase(text);
      var relevance := svc.tfidfCosine(query, text).value;
      var credibility := CredibilityScore(cfg, svc, text);
      && r.FullResult?
      && r.domainTrust == dt
      && r.readability == flesch
      && r.relevanceScore == relevance
      && r.credibilityScore == credibility
      && r.finalRating == (if dt.Some? then dt.value else 0.0) * 0.4 + (flesch / 100.0) * 0.2
                          + (relevance * 100.0) * 0.3 + (credibility * 100.0) * 0.2
      && ConvertScoreToRating(r.finalRating) == Rating(r.rating, r.icon, r.explanation)
  {
  }

  /** Only the TF-IDF collaborator can make `rate_url_content` raise. */
  lemma RaisesOnlyFromVectorizer(cfg: ValidatorConfig, svc: Services, url: string, query: string)
    requires RateUrlContent(cfg, svc, url, query).RelevanceRaised?
    ensures IsValidUrl(url)
    ensures svc.fetchArticleText(url).Some? && svc.fetchArticleText(url).value != ""
    ensures svc.tfidfCosine(query, svc.fetchArticleText(url).value) == None
  {
  }

  /**
   * Conversely, the vectorizer's error is not caught: on a valid URL with
   * readable text, a failing TF-IDF similarity makes `rate_url_content`
   * raise, whatever the other collaborators return.
   */
  lemma VectorizerErrorEscapes(cfg: ValidatorConfig, svc: Services, url: string, query: string, text: string)
    requires IsValidUrl(url)
    requires svc.fetchArticleText(url) == Some(text) && text != ""
    requires svc.tfidfCosine(query, text).None?
    ensures RateUrlContent(cfg, svc, url, query) == RelevanceRaised(url)
  {
  }

  /**
   * Without the classifier, credibility is the neutral 0.5 and contributes
   * exactly 10 points to the final rating.
   */
  lemma MissingModelContributesTen(cfg: ValidatorConfig, svc: Services, url: string, query: string, text: string)
    requires !cfg.modelLoaded
    requires IsValidUrl(url)
    requires svc.fetchArticleText(url) == Some(text) && text != ""
    requires svc.tfidfCosine(query, text).Some?
    ensures var r := RateUrlContent(cfg, svc, url, query);
      r.FullResult? && r.credibilityScore == 0.5
      && r.finalRating == FinalScore(r.domainTrust, r.readability, r.relevanceScore, 0.0) + 10.0
  {
  }

  /**
   * With both credentials set, a Moz reply whose first result carries an
   * authority `v` puts `0.4 * v` into the final rating; any other reply
   * leaves the domain-trust term at 0.
   */
  lemma MozAuthorityReachesScore(cfg: ValidatorConfig, svc: Services, url: string, query: string, text: string)
    requires Truthy(cfg.mozAccessId) && Truthy(cfg.mozSecretKey)
    requires IsValidUrl(url)
    requires svc.fetchArticleText(url) == Some(text) && text != ""
    requires svc.tfidfCosine(query, text).Some?
    ensures var r := RateUrlContent(cfg, svc, url, query);
      var reply := svc.mozUrlMetrics(url);
      && r.FullResult?
      && (reply.MozReply? && reply.results.Some? && |reply.results.value| > 0 ==>
            r.domainTrust == reply.results.value[0])
      && r.finalRating == FinalScore(None, r.readability, r.relevanceScore, r.credibilityScore)
                          + 0.4 * (if r.domainTrust.Some? then r.domainTrust.value else 0.0)
  {
  }

  /**
   * A missing domain trust lowers the final score by exactly the trust's
   * weighted contribution, `0.4 * trust`.
   */
  lemma MissingDomainTrustCost(trust: real, readability: real, relevance: real, credibility: real)
    ensures FinalScore(Some(trust), readability, relevance, credibility)
            - FinalScore(None, readability, relevance, credibility) == 0.4 * trust
  {
  }

  /**
   * Readability is divided by 100 before its weight is applied, so one
   * readability point moves the 0-100 score by only 1/500: the whole 0-100
   * Flesch range is worth 0.2 points.
   */
  lemma ReadabilityWeightIsTiny(dt: Option<real>, r1: real, r2: real, relevance: real, credibility: real)
    ensures FinalScore(dt, r2, relevance, credibility) - FinalScore(dt, r1, relevance, credibility)
            == (r2 - r1) / 500.0
  {
  }

  /**
   * With a 0-100 domain authority, a 0-100 readability and relevance and
   * credibility in [0, 1], the final score lies in [0, 90.2]: the weights
   * add up to 1.1, but the readability scale caps the top near 90, so five
   * stars need almost every signal at its maximum.
   */
  lemma FinalScoreRange(dt: Option<real>, readability: real, relevance: real, credibility: real)
    requires dt.Some? ==> 0.0 <= dt.value <= 100.0
    requires 0.0 <= readability <= 100.0
    requires 0.0 <= relevance <= 1.0 && 0.0 <= credibility <= 1.0
    ensures 0.0 <= FinalScore(dt, readability, relevance, credibility) <= 90.2
  {
  }
}
