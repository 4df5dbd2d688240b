# Article credibility scoring — a Dafny model

This project models the decision logic of two variants of a web-article
credibility scorer:

- `ArticleValidator` (`projects/project1/deliverable2.py`) validates a URL, downloads the
  article, computes four signals (Moz domain authority, Flesch readability,
  TF-IDF relevance to the query, a transformer's credibility probability),
  combines them with fixed weights into a 0-100 score and maps that score to
  one to five stars with an explanation sentence.
- The rule-based validity pipeline (`projects/project1/deliverable1.py`) picks a category
  from keywords in the user's prompt, rates the article's domain against the
  category's trusted list, compares the page text with the category's
  reference sentences, maps a fact-check reply to a score and averages the
  three sub-scores; a fetched text starting with "Error" scores 0.

Everything that reaches outside the process — page download and HTML
extraction, `textstat`, the classifier, the TF-IDF vectorizer, sentence
embeddings, the Moz and Google Fact Check requests, `tldextract` — is an
arrow-typed field of a `Services` / `ValidityServices` value passed to the
pipeline, so each lemma holds for every behaviour of those collaborators.
Scores are `real`s.

Modules, one per component:

| file | module | models |
|---|---|---|
| `wrappers.dfy` | `Wrappers` | `Option`, for `None` |
| `text.dfy` | `Text` | `startswith`, `endswith`, `in` on strings, `lower()`, `c * n` |
| `url_validation.dfy` | `UrlValidation` | `is_valid_url` |
| `star_rating.dfy` | `StarRating` | `round` and `convert_score_to_rating` |
| `article_validator.dfy` | `ArticleValidator` | signal guards, Moz score, weighted sum, `rate_url_content` |
| `category_detection.dfy` | `CategoryDetection` | `detect_category` |
| `validity_pipeline.dfy` | `ValidityPipeline` | `check_domain_credibility`, `fetch_url_text`, `get_dynamic_trusted_sources`, `check_fact_claim`, `evaluate_article_validity` |

Notes on what the code does, which the model follows:
- The code has no URL-shortener check.
- Its domain trust is the Moz authority (0-100) or a per-category list, not a TLD table.
- A missing domain trust counts as 0, not as a neutral value.
- The final score is not clamped; only the star rating is.
- The four weights (0.4, 0.2, 0.3, 0.2) add up to 1.1.
- Readability is divided by 100 while relevance and credibility are multiplied by 100.
- `detect_category` has no "science" entry.
- The TF-IDF vectorizer's exception escapes `rate_url_content`.

## Model

| member | source | states |
|---|---|---|
| `UrlValidation.UnitRunMatchIffFirstUnit` | projects/project1/deliverable2.py:35-37 | the repeated host-unit group of the pattern matches a non-empty prefix exactly when the first unit is there |
| `UrlValidation.WellFormedPrefixIsRegexMatch` | projects/project1/deliverable2.py:35-37 | `re.match` of the URL pattern succeeds exactly when the string starts with `http://` or `https://` and one host character or `%hh` escape |
| `UrlValidation.IsValidUrl` | projects/project1/deliverable2.py:32-40 | a URL is valid exactly when the regex matches at its start and it ends in none of the suspicious TLDs; a valid URL starts with a scheme and is longer than 7 characters |
| `UrlValidation.HasSuspiciousTld` | projects/project1/deliverable2.py:34-37 | true exactly when the whole string ends in `.xyz`, `.ru`, `.tk`, `.cn` or `.top` |
| `UrlValidation.SuspiciousTldRejected` | projects/project1/deliverable2.py:34-37 | every string ending in `.xyz`, `.ru`, `.tk`, `.cn` or `.top` is rejected |
| `UrlValidation.SuffixRuleSeesOnlyTheEnd` | projects/project1/deliverable2.py:34-37 | `https://a.ru/x` passes, `https://a.ru` and `not a url` fail: only the end of the whole string is checked |
| `UrlValidation.TailUnconstrained` | projects/project1/deliverable2.py:35-37 | anything appended after a well-formed prefix still matches the pattern |
| `StarRating.RoundHalfEven` | projects/project1/deliverable2.py:107 | Python's `round`: the result is within 1/2 of the input, and a tie goes to the even integer |
| `StarRating.RoundMonotone` | projects/project1/deliverable2.py:107 | rounding preserves order |
| `StarRating.Clamp` | projects/project1/deliverable2.py:108 | `max(1, min(x, 5))` lies in the bounds and is `x` when `x` does |
| `StarRating.ExplanationFor` | projects/project1/deliverable2.py:111-119 | ratings 1 to 5 get their table sentence; any other rating gets "No explanation available." |
| `StarRating.Stars` | projects/project1/deliverable2.py:109 | the star string has 5 characters: `rating` full stars, then empty ones |
| `StarRating.ConvertScoreToRating` | projects/project1/deliverable2.py:105-119 | the rating is in 1..5 for every score; 1 exactly below 30, 5 exactly above 90, otherwise within 10 of `20 * rating`; the stars match the rating; the explanation is the table entry, never the default |
| `StarRating.RatingMonotone` | projects/project1/deliverable2.py:107-108 | a higher score never gets fewer stars |
| `StarRating.TiesRoundToEvenTier` | projects/project1/deliverable2.py:107-108 | scores 30 and 50 give 2 stars, 70 and 90 give 4 |
| `ArticleValidator.ReadabilityScore` | projects/project1/deliverable2.py:59-61 | readability is 0 on empty text, otherwise the Flesch score |
| `ArticleValidator.CredibilityScore` | projects/project1/deliverable2.py:63-76 | credibility is 0.5 when the model is missing or the text empty, or when inference raises; a successful classification's probability is returned as is |
| `ArticleValidator.RelevanceScore` | projects/project1/deliverable2.py:78-85 | relevance is 0 on empty text, otherwise the TF-IDF similarity or its exception |
| `ArticleValidator.DomainAuthority` | projects/project1/deliverable2.py:99-103 | a reply with a non-empty results list gives its first entry's authority; every other reply, and a failed request, gives `None` |
| `ArticleValidator.MozDomainScore` | projects/project1/deliverable2.py:87-103 | missing or empty credentials give `None`; with both credentials the result is the authority read from the Moz reply |
| `ArticleValidator.MozAuthorityReachesScore` | projects/project1/deliverable2.py:87-141 | with both credentials, the first result's authority is the record's domain trust and adds `0.4` times itself to the final rating |
| `ArticleValidator.TrustOrZero` | projects/project1/deliverable2.py:137 | `domain_trust or 0`: `None` counts as 0, a present trust as itself |
| `ArticleValidator.FinalScore` | projects/project1/deliverable2.py:136-141 | the final score weighs each unit of domain authority by 0.4, a Flesch point by 0.002, relevance by 30 and credibility by 20 |
| `ArticleValidator.RateUrlContent` | projects/project1/deliverable2.py:121-163 | every result not raised has a rating in 1..5 and the matching star icon; early exits have rating 1; a full result's explanation is the rating's table entry |
| `ArticleValidator.LowestIconIsOneStar` | projects/project1/deliverable2.py:109-124 | the hard-coded early-exit icon equals the mapper's one-star string |
| `ArticleValidator.InvalidUrlDecidedBeforeFetch` | projects/project1/deliverable2.py:123-124 | an invalid URL gives rating 1 with "Invalid or suspicious URL.", the same for every collaborator behaviour |
| `ArticleValidator.NoContentSkipsSignals` | projects/project1/deliverable2.py:126-128 | absent or empty text gives rating 1 with "No readable content found.", whatever the signal providers do |
| `ArticleValidator.FullPathScore` | projects/project1/deliverable2.py:130-156 | on the full path the record holds each signal, `final_rating` is the weighted sum with `None` trust as 0, and rating, icon and explanation are the mapper's for it |
| `ArticleValidator.RaisesOnlyFromVectorizer` | projects/project1/deliverable2.py:78-85 | the only escaping exception is the vectorizer's, on a valid URL with non-empty text |
| `ArticleValidator.VectorizerErrorEscapes` | projects/project1/deliverable2.py:78-85 | on a valid URL with non-empty text, a failing vectorizer makes `rate_url_content` raise: the error is not caught |
| `ArticleValidator.MissingModelContributesTen` | projects/project1/deliverable2.py:65-67 | without the classifier, credibility is 0.5 and adds exactly 10 to the final rating |
| `ArticleValidator.MissingDomainTrustCost` | projects/project1/deliverable2.py:137 | a missing trust lowers the score by exactly `0.4 * trust` |
| `ArticleValidator.ReadabilityWeightIsTiny` | projects/project1/deliverable2.py:138 | one readability point moves the score by 1/500 |
| `ArticleValidator.FinalScoreRange` | projects/project1/deliverable2.py:136-141 | with domain authority and readability in [0, 100] and relevance and credibility in [0, 1], the final score lies in [0, 90.2]; Flesch scores outside [0, 100] are not covered |
| `Text.LowerIdempotent` | projects/project1/deliverable1.py:28 | lower-casing twice equals lower-casing once |
| `CategoryDetection.FirstMatch` | projects/project1/deliverable1.py:27-30 | the index found is the first entry whose keywords occur in the text, or the end when none does |
| `CategoryDetection.DetectCategory` | projects/project1/deliverable1.py:19-30 | the category is one of travel, health, finance, general, never science; it is the category of the first map entry, in map order, with a keyword in the lower-cased prompt, so a finance keyword with no travel or health keyword gives "finance" |
| `CategoryDetection.CaseInsensitive` | projects/project1/deliverable1.py:28 | a prompt and its lower-cased form get the same category |
| `CategoryDetection.TravelThenHealthPriority` | projects/project1/deliverable1.py:21-29 | a travel keyword wins over all others; a health keyword wins over finance |
| `CategoryDetection.GeneralIffNoKeyword` | projects/project1/deliverable1.py:27-30 | "general" exactly when no keyword of any category occurs |
| `CategoryDetection.SeMeansFinance` | projects/project1/deliverable1.py:24-29 | a prompt containing "se" and no travel or health keyword is "finance" |
| `CategoryDetection.UpperCaseKeywordExample` | projects/project1/deliverable1.py:22-29 | "Book a FLIGHT" is "travel" |
| `ValidityPipeline.TrustedDomains` | projects/project1/deliverable1.py:38 | a category with a trusted list gets that non-empty list; any other category, "general" included, gets the empty list |
| `ValidityPipeline.CheckDomainCredibility` | projects/project1/deliverable1.py:33-45 | the score is 1.0, 0.6 or 0.3; 1.0 exactly for a domain in the category's list; 0.6 exactly for other domains containing "travel" or "leisure" |
| `ValidityPipeline.UnlistedCategoryNeverFullyTrusted` | projects/project1/deliverable1.py:38-41 | a category without a list, such as "general", never scores 1.0 |
| `ValidityPipeline.ScienceDomainsNeverFullyTrusted` | projects/project1/deliverable1.py:11-41 | nasa.gov, mit.edu and nature.com never score 1.0 for any prompt's category |
| `ValidityPipeline.DynamicTrustedSources` | projects/project1/deliverable1.py:61-85 | the list is never empty; unknown categories get the placeholder only; a known category gets exactly its own three reference sentences |
| `ValidityPipeline.PipelineReferenceTexts` | projects/project1/deliverable1.py:114-125 | a general prompt is compared with the placeholder; the science sentences are never used |
| `ValidityPipeline.FetchUrlText` | projects/project1/deliverable1.py:48-58 | a failed request or non-200 status gives "Error fetching page."; a 200 gives the page's visible text |
| `ValidityPipeline.CheckFactClaim` | projects/project1/deliverable1.py:97-108 | the score is 1.0, 0.5 or 0.3: 1.0 exactly for a 200 reply with a readable first claim; 0.5 exactly for other completed replies with no claims; 0.3 for every exception |
| `ValidityPipeline.EvaluateArticleValidity` | projects/project1/deliverable1.py:111-143 | the fetch fails exactly when the text starts with "Error", and the score is then 0; otherwise the record reports the prompt's category, the domain verdict for the extracted domain, the best similarity to that category's reference texts and the fact-check verdict for the prompt, and the score is the mean of the three sub-scores |
| `ValidityPipeline.FetchFailureScoresZero` | projects/project1/deliverable1.py:120-122 | a failed request, a non-200 status or page text starting with "Error" scores 0 |
| `ValidityPipeline.ScoreIsMeanOfSubScores` | projects/project1/deliverable1.py:124-132 | otherwise the score is the mean of domain, similarity and fact-check scores for the prompt's category |
| `ValidityPipeline.ScoreRange` | projects/project1/deliverable1.py:132 | with similarity in [-1, 1] the score is in [-2/15, 1]; with similarity in [0, 1] an assessed page scores in [1/5, 1] |

## Left out

- Page download and HTML extraction (`get_article_text`, and the request and BeautifulSoup parts of `fetch_url_text`) are I/O. They are collaborators: `fetchArticleText` returns the text or `None`; `requestPage` returns a status and the visible text.
- `textstat.flesch_reading_ease`, the transformer classifier, TF-IDF cosine similarity, sentence-embedding similarity and `tldextract` are foreign libraries. They are uninterpreted collaborators; only the guard branches around them are modelled.
- The Moz and Google Fact Check HTTP requests are network calls. Only the mapping from an abstract reply to a score is modelled.
- Moz replies are modelled as lists of optional numbers. Non-numeric `domain_authority` values and bodies that are not JSON objects are not modelled.
- Fact-check bodies that are not JSON objects, and `claims` values that are not lists, are not modelled.
- Model loading in `__init__` is reduced to the flag `modelLoaded`, and the credentials to optional strings.
- Writing `analysis_result.json`, `print` and logging are side effects. They are not modelled.
- `ArticleValidator.RateUrlContent` does not model the exception that a failing `open` or `json.dump` of `analysis_result.json` raises out of `rate_url_content`, because file I/O is outside the model. `RaisesOnlyFromVectorizer` covers only the modelled collaborators.
- The explanation text of `evaluate_article_validity` formats floats with `round(x, 2)`. The model does not build it; `Assessed` carries the category, verdicts and scores it reports.
- Scores are exact reals, not IEEE-754 doubles. In particular `(final_score / 100) * 5` is computed exactly, so a tie that floating point would nudge off .5 is not captured.
- `\w` and `\d` in the URL pattern mean ASCII letters, digits and `_` here. Python's Unicode word and digit characters beyond ASCII are not modelled.
- `str.lower()` is modelled on ASCII letters only.
- `ArticleValidator.ReadabilityScore`, `ArticleValidator.CredibilityScore` and `ArticleValidator.RelevanceScore` take a string. The `None` text those methods would also treat as empty is not modelled, because `rate_url_content` never passes it.
- The module-level example run at the end of `projects/project1/deliverable1.py` and the driver `projects/project1/test_run_v2.py` contain no logic of their own.
