/**
 * `ArticleValidator.is_valid_url`: a URL is accepted when the regular
 * expression `https?://(?:[-\w.]|(?:%[\da-fA-F]{2}))+` matches at its start
 * (`re.match` anchors only there) and the whole string does not end in
 * `.xyz`, `.ru`, `.tk`, `.cn` or `.top`.
 *
 * `\w` and `\d` are taken as their ASCII meaning: letters, digits and `_`.
 */
module UrlValidation {
  import opened Text

  const SuspiciousTlds: seq<string> := ["xyz", "ru", "tk", "cn", "top"]

  predicate IsDigit(c: char) { '0' <= c <= '9' }

  /** `\w` over ASCII */
  predicate IsWordChar(c: char) {
    ('a' <= c <= 'z') || ('A' <= c <= 'Z') || IsDigit(c) || c == '_'
  }

  /** `[\da-fA-F]` */
  predicate IsHexDigit(c: char) {
    IsDigit(c) || ('a' <= c <= 'f') || ('A' <= c <= 'F')
  }

  /** `[-\w.]` */
  predicate IsHostChar(c: char) {
    c == '-' || c == '.' || IsWordChar(c)
  }

  /**
   * The regular language `(?:[-\w.]|%[\da-fA-F]{2})+`: `s` splits into one or
   * more units, each a host character or a percent escape.
   */
  ghost predicate IsUnitRun(s: string)
    decreases |s|
  {
    || (|s| >= 1 && IsHostChar(s[0]) && (|s| == 1 || IsUnitRun(s[1..])))
    || (|s| >= 3 && s[0] == '%' && IsHexDigit(s[1]) && IsHexDigit(s[2])
        && (|s| == 3 || IsUnitRun(s[3..])))
  }

  /** The unit run matches some non-empty prefix of `s`. */
  ghost predicate UnitRunMatchesAtStart(s: string) {
    exists k | 0 < k <= |s| :: IsUnitRun(s[..k])
  }

  /** `re.match(regex, url)` succeeds. */
  ghost predicate RegexMatches(url: string) {
    || (IsPrefix("http://", url) && UnitRunMatchesAtStart(url[7..]))
    || (IsPrefix("https://", url) && UnitRunMatchesAtStart(url[8..]))
  }

  /** The first unit the `+` needs is present at the start of `s`. */
  predicate StartsWithUnit(s: string) {
    || (|s| >= 1 && IsHostChar(s[0]))
    || (|s| >= 3 && s[0] == '%' && IsHexDigit(s[1]) && IsHexDigit(s[2]))
  }

  /** A match of `X+` anchored at the start exists exactly when one `X` does. */
  lemma UnitRunMatchIffFirstUnit(s: string)
    ensures UnitRunMatchesAtStart(s) <==> StartsWithUnit(s)
  {
    if UnitRunMatchesAtStart(s) {
      var k :| 0 < k <= |s| && IsUnitRun(s[..k]);
      assert s[..k][0] == s[0];
      if k >= 3 {
        assert s[..k][1] == s[1] && s[..k][2] == s[2];
      }
    }
    if StartsWithUnit(s) {
      if |s| >= 1 && IsHostChar(s[0]) {
        assert IsUnitRun(s[..1]);
      } else {
        assert IsUnitRun(s[..3]);
      }
    }
  }

  /** `url` starts with a scheme and one host unit: the regex half of the test. */
  predicate HasWellFormedPrefix(url: string) {
    || (IsPrefix("http://", url) && StartsWithUnit(url[7..]))
    || (IsPrefix("https://", url) && StartsWithUnit(url[8..]))
  }

  lemma WellFormedPrefixIsRegexMatch(url: string)
    ensures HasWellFormedPrefix(url) <==> RegexMatches(url)
  {
    if |url| >= 7 { UnitRunMatchIffFirstUnit(url[7..]); }
    if |url| >= 8 { UnitRunMatchIffFirstUnit(url[8..]); }
  }

  /** `any(url.endswith(f".{tld}") for tld in suspicious_tlds)` */
  predicate HasSuspiciousTld(url: string)
    ensures HasSuspiciousTld(url) <==>
      || IsSuffix(".xyz", url) || IsSuffix(".ru", url) || IsSuffix(".tk", url)
      || IsSuffix(".cn", url) || IsSuffix(".top", url)
  {
    assert "." + SuspiciousTlds[0] == ".xyz" && "." + SuspiciousTlds[1] == ".ru"
      && "." + SuspiciousTlds[2] == ".tk" && "." + SuspiciousTlds[3] == ".cn"
      && "." + SuspiciousTlds[4] == ".top";
    exists i | 0 <= i < |SuspiciousTlds| :: IsSuffix("." + SuspiciousTlds[i], url)
  }

  /** `is_valid_url(url)` */
  function IsValidUrl(url: string): (valid: bool)
    ensures valid <==> RegexMatches(url) && !HasSuspiciousTld(url)
    ensures valid ==> |url| > 7 && (IsPrefix("http://", url) || IsPrefix("https://", url))
  {
    WellFormedPrefixIsRegexMatch(url);
    HasWellFormedPrefix(url) && !HasSuspiciousTld(url)
  }

  /** Every URL ending in a suspicious top-level domain is rejected. */
  lemma SuspiciousTldRejected(url: string, tld: string)
    requires tld in SuspiciousTlds && IsSuffix("." + tld, url)
    ensures !IsValidUrl(url)
  {
  }

  /**
   * Only the end of the whole string is compared with the list: a `.ru` host
   * followed by a path passes, the bare `.ru` host does not, and text that is
   * not a URL never passes.
   */
  lemma SuffixRuleSeesOnlyTheEnd()
    ensures IsValidUrl("https://a.ru/x")
    ensures !IsValidUrl("https://a.ru")
    ensures !IsValidUrl("not a url")
  {
    var u := "https://a.ru/x";
    assert IsPrefix("https://", u);
    assert u[8..][0] == 'a';
    forall i | 0 <= i < |SuspiciousTlds|
      ensures !IsSuffix("." + SuspiciousTlds[i], u)
    {
      assert u[|u| - 1] == 'x';
    }
    var v := "https://a.ru";
    assert IsSuffix("." + SuspiciousTlds[1], v);
    var w := "not a url";
    assert !IsPrefix("http://", w) && !IsPrefix("https://", w) by {
      assert w[0] == 'n';
    }
  }

  /** Anything may follow the first host unit: the regex is not anchored at the end. */
  lemma TailUnconstrained(url: string, tail: string)
    requires HasWellFormedPrefix(url)
    ensures RegexMatches(url + tail)
  {
    var u := url + tail;
    assert u[..|url|] == url;
    if IsPrefix("http://", url) && StartsWithUnit(url[7..]) {
      assert u[..7] == url[..7];
      assert u[7..][0] == url[7..][0];
      if |url[7..]| >= 3 { assert u[7..][1] == url[7..][1] && u[7..][2] == url[7..][2]; }
      assert HasWellFormedPrefix(u);
    } else {
      assert u[..8] == url[..8];
      assert u[8..][0] == url[8..][0];
      if |url[8..]| >= 3 { assert u[8..][1] == url[8..][1] && u[8..][2] == url[8..][2]; }
      assert HasWellFormedPrefix(u);
    }
    WellFormedPrefixIsRegexMatch(u);
  }
}
