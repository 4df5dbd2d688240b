/**
 * `detect_category`: the lower-cased prompt is searched for the keywords of
 * each category in the map's order, and the first category with a keyword
 * in the prompt wins; with none, the prompt is "general".
 */
module CategoryDetection {
  import opened Text

  datatype KeywordEntry = KeywordEntry(category: string, keywords: seq<string>)

  /** `keyword_map`, in its insertion order. It has no "science" entry. */
  const KeywordMap: seq<KeywordEntry> := [
    KeywordEntry("travel", ["airport", "flight", "airline", "visa", "trip"]),
    KeywordEntry("health", ["disease", "covid", "medicine", "symptoms", "treatment"]),
    KeywordEntry("finance", ["se", "nasa", "technology", "physics", "climate"])
  ]

  const General: string := "general"

  /** `any(keyword in text for keyword in keywords)` */
  predicate MentionsAny(text: string, keywords: seq<string>) {
    exists i | 0 <= i < |keywords| :: Contains(text, keywords[i])
  }

  /**
   * Index of the first entry with a keyword in `text`, or `|entries|` when
   * there is none.
   */
  function FirstMatch(entries: seq<KeywordEntry>, text: string): (k: nat)
    ensures k <= |entries|
    ensures k < |entries| ==> MentionsAny(text, entries[k].keywords)
    ensures forall j :: 0 <= j < k ==> !MentionsAny(text, entries[j].keywords)
    decreases |entries|
  {
    if |entries| == 0 then 0
    else if MentionsAny(text, entries[0].keywords) then 0
    else 1 + FirstMatch(entries[1..], text)
  }

  /** `detect_category(user_prompt)` */
  function DetectCategory(prompt: string): (category: string)
    ensures category in {"travel", "health", "finance", "general"}
    ensures forall k :: 0 <= k < |KeywordMap| ==>
              ((MentionsCategory(prompt, k) && forall j :: 0 <= j < k ==> !MentionsCategory(prompt, j))
               ==> category == KeywordMap[k].category)
    ensures !MentionsCategory(prompt, 0) && !MentionsCategory(prompt, 1) && MentionsCategory(prompt, 2) ==>
              category == "finance"
  {
    var k := FirstMatch(KeywordMap, Lower(prompt));
    assert k < |KeywordMap| ==> MentionsCategory(prompt, k);
    if k < |KeywordMap| then KeywordMap[k].category else General
  }

  /** Upper and lower case are not told apart. */
  lemma CaseInsensitive(prompt: string)
    ensures DetectCategory(prompt) == DetectCategory(Lower(prompt))
  {
    LowerIdempotent(prompt);
  }

  /** The prompt's lower-cased text mentions a keyword of entry `k` of the map. */
  predicate MentionsCategory(prompt: string, k: nat)
    requires k < |KeywordMap|
  {
    MentionsAny(Lower(prompt), KeywordMap[k].keywords)
  }

  /**
   * The map's order decides: any travel keyword makes the prompt "travel";
   * otherwise any health keyword makes it "health", even beside finance
   * keywords.
   */
  lemma TravelThenHealthPriority(prompt: string)
    ensures MentionsCategory(prompt, 0) ==> DetectCategory(prompt) == "travel"
    ensures !MentionsCategory(prompt, 0) && MentionsCategory(prompt, 1) ==>
              DetectCategory(prompt) == "health"
  {
  }

  /** "general" exactly when no keyword of any category occurs in the prompt. */
  lemma GeneralIffNoKeyword(prompt: string)
    ensures DetectCategory(prompt) == General <==>
      forall k :: 0 <= k < |KeywordMap| ==> !MentionsCategory(prompt, k)
  {
    var k := FirstMatch(KeywordMap, Lower(prompt));
    if k < |KeywordMap| {
      assert KeywordMap[k].category != General;
      assert MentionsCategory(prompt, k);
    }
  }

  /**
   * "se" is a finance keyword, so any prompt containing those two letters
   * (as in "use") and no travel or health keyword is "finance".
   */
  lemma SeMeansFinance(prompt: string)
    requires Contains(Lower(prompt), "se")
    requires !MentionsCategory(prompt, 0) && !MentionsCategory(prompt, 1)
    ensures DetectCategory(prompt) == "finance"
  {
    assert KeywordMap[2].keywords[0] == "se";
    assert MentionsCategory(prompt, 2);
    var k := FirstMatch(KeywordMap, Lower(prompt));
    assert k == 2;
  }

  /** A travel keyword in capitals still selects "travel". */
  lemma UpperCaseKeywordExample()
    ensures DetectCategory("Book a FLIGHT") == "travel"
  {
    var low := Lower("Book a FLIGHT");
    assert low[7..13] == "flight";
    ContainsAt(low, "flight", 7);
    assert KeywordMap[0].keywords[1] == "flight";
    assert MentionsCategory("Book a FLIGHT", 0);
    TravelThenHealthPriority("Book a FLIGHT");
  }
}
