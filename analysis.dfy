/**
 * Scoring, risk tier, recommendations and the pass/fail checklist of
 * `utils/analysis.py`: the header analysis and the TLS scan are folded into
 * one score, a per-category breakdown and ordered lists of lines.
 */
module Analysis {
  import opened Wrappers
  import opened Text
  import opened Headers
  import opened Tls
  import WordPress

  // ---------------------------------------------------------------------
  // CMS findings joining the analysis
  // ---------------------------------------------------------------------

  /** The analysis gains a `wordpress_issues` entry only when the site is
      detected as WordPress. */
  function WithWordPress(a: HeaderAnalysis, headers: HeaderSet, body: string): (r: HeaderAnalysis)
    ensures r.wordpressIssues.Some? <==> WordPress.CheckWordPress(headers, body)
    ensures r.wordpressIssues.Some? ==> |r.wordpressIssues.value| <= 7
    ensures r.(wordpressIssues := a.wordpressIssues) == a
  {
    if WordPress.CheckWordPress(headers, body) then
      a.(wordpressIssues := Some(WordPress.WordPressIssues(headers, body)))
    else a.(wordpressIssues := None)
  }

  // ---------------------------------------------------------------------
  // Score and breakdown
  // ---------------------------------------------------------------------

  datatype Category = HeaderCategory | SslCategory | CookieCategory | CorsCategory | WordPressCategory

  /** The breakdown keys in the order the dictionary lists them. */
  const Categories: seq<Category> := [HeaderCategory, SslCategory, CookieCategory, CorsCategory, WordPressCategory]

  /** The starting budget of each category. */
  function Budget(c: Category): nat
  {
    match c
    case HeaderCategory => 40
    case SslCategory => 30
    case CookieCategory => 15
    case CorsCategory => 10
    case WordPressCategory => 5
  }

  /** `max(x, 0)`. */
  function Clamp(x: int): nat
  {
    if x < 0 then 0 else x
  }

  function MissingPenalty(a: HeaderAnalysis): nat { |a.missingEssential| * 3 }

  function DeprecatedPenalty(a: HeaderAnalysis): nat { |a.deprecated| * 2 }

  /** CSP, cookie, CORS and HSTS issues cost 2 points each, against the score only. */
  function IssuePenalty(a: HeaderAnalysis): nat
  {
    |a.cspIssues| * 2 + |a.cookieIssues| * 2 + |a.corsIssues| * 2 + |a.hstsIssues| * 2
  }

  function WeakCipherPenalty(s: ScanResult): nat
  {
    if s.weakCiphers != [] then |s.weakCiphers| * 3 else 0
  }

  function CompressionPenalty(s: ScanResult): nat
  {
    if s.compressionEnabled then 10 else 0
  }

  function WordPressPenalty(a: HeaderAnalysis): nat
  {
    if a.wordpressIssues.Some? then |a.wordpressIssues.value| * 2 else 0
  }

  /** Everything deducted from the score of 100. */
  function TotalPenalty(a: HeaderAnalysis, s: ScanResult): nat
  {
    MissingPenalty(a) + DeprecatedPenalty(a) + IssuePenalty(a)
    + WeakCipherPenalty(s) + CompressionPenalty(s) + WordPressPenalty(a)
  }

  /** The breakdown before clamping: each budget less the penalties charged
      to it; cookies and CORS are never charged. */
  function RawBreakdown(a: HeaderAnalysis, s: ScanResult): map<Category, int>
  {
    map[HeaderCategory := 40 - MissingPenalty(a) - DeprecatedPenalty(a),
        SslCategory := 30 - WeakCipherPenalty(s) - CompressionPenalty(s),
        CookieCategory := 15,
        CorsCategory := 10,
        WordPressCategory := 5 - WordPressPenalty(a)]
  }

  /** The security score: 100 less every penalty, never below 0. */
  function ScoreOf(a: HeaderAnalysis, s: ScanResult): (score: int)
    ensures 0 <= score <= 100
    ensures score == 0 || score == 100 - TotalPenalty(a, s)
    ensures TotalPenalty(a, s) < 100 ==> score == 100 - TotalPenalty(a, s)
  {
    Clamp(100 - TotalPenalty(a, s))
  }

  /** The breakdown: each category's budget less its own penalties, never below 0. */
  function BreakdownOf(a: HeaderAnalysis, s: ScanResult): (b: map<Category, int>)
    ensures forall c :: c in b <==> c in Categories
    ensures forall c :: c in b ==> 0 <= b[c] <= Budget(c)
    ensures b[CookieCategory] == 15 && b[CorsCategory] == 10
    ensures b[HeaderCategory] == Clamp(40 - |a.missingEssential| * 3 - |a.deprecated| * 2)
  {
    map c | c in Categories :: Clamp(RawBreakdown(a, s)[c])
  }

  method CalculateSecurityScore(a: HeaderAnalysis, s: ScanResult) returns (score: int, breakdown: map<Category, int>)
    ensures score == ScoreOf(a, s)
    ensures breakdown == BreakdownOf(a, s)
  {
    score := 100;
    breakdown := map[HeaderCategory := 40, SslCategory := 30, CookieCategory := 15,
                     CorsCategory := 10, WordPressCategory := 5];

    var missingPenalty := |a.missingEssential| * 3;
    score := score - missingPenalty;
    breakdown := breakdown[HeaderCategory := breakdown[HeaderCategory] - missingPenalty];

    var deprecatedPenalty := |a.deprecated| * 2;
    score := score - deprecatedPenalty;
    breakdown := breakdown[HeaderCategory := breakdown[HeaderCategory] - deprecatedPenalty];

    score := score - |a.cspIssues| * 2;
    score := score - |a.cookieIssues| * 2;
    score := score - |a.corsIssues| * 2;
    score := score - |a.hstsIssues| * 2;

    if s.weakCiphers != [] {
      var sslPenalty := |s.weakCiphers| * 3;
      score := score - sslPenalty;
      breakdown := breakdown[SslCategory := breakdown[SslCategory] - sslPenalty];
    }
    if s.compressionEnabled {
      score := score - 10;
      breakdown := breakdown[SslCategory := breakdown[SslCategory] - 10];
    }
    if a.wordpressIssues.Some? {
      var wpPenalty := |a.wordpressIssues.value| * 2;
      score := score - wpPenalty;
      breakdown := breakdown[WordPressCategory := breakdown[WordPressCategory] - wpPenalty];
    }

    score := if score < 0 then 0 else score;
    assert breakdown == RawBreakdown(a, s);
    breakdown := ClampAll(breakdown);
  }

  /** The closing loop of `calculate_security_score`: every category value
      is raised to at least 0, key by key. */
  method ClampAll(b: map<Category, int>) returns (r: map<Category, int>)
    requires forall c :: c in b <==> c in Categories
    ensures r == map c | c in Categories :: Clamp(b[c])
  {
    r := b;
    var i := 0;
    while i < |Categories|
      invariant 0 <= i <= |Categories|
      invariant forall c :: c in r <==> c in Categories
      invariant forall k :: 0 <= k < |Categories| ==>
        r[Categories[k]] == if k < i then Clamp(b[Categories[k]]) else b[Categories[k]]
    {
      var c := Categories[i];
      r := r[c := if r[c] < 0 then 0 else r[c]];
      i := i + 1;
    }
  }

  /** How many WordPress issues the analysis carries (none when the entry is absent). */
  function WordPressCount(a: HeaderAnalysis): nat
  {
    if a.wordpressIssues.Some? then |a.wordpressIssues.value| else 0
  }

  /** `(a', s')` reports every kind of finding at least as often as `(a, s)`. */
  predicate MoreFindings(a: HeaderAnalysis, s: ScanResult, a': HeaderAnalysis, s': ScanResult)
  {
    && |a.missingEssential| <= |a'.missingEssential|
    && |a.deprecated| <= |a'.deprecated|
    && |a.cspIssues| <= |a'.cspIssues|
    && |a.cookieIssues| <= |a'.cookieIssues|
    && |a.corsIssues| <= |a'.corsIssues|
    && |a.hstsIssues| <= |a'.hstsIssues|
    && |s.weakCiphers| <= |s'.weakCiphers|
    && (s.compressionEnabled ==> s'.compressionEnabled)
    && WordPressCount(a) <= WordPressCount(a')
  }

  /** More findings never raise the score or any category of the breakdown. */
  lemma ScoreAntitone(a: HeaderAnalysis, s: ScanResult, a': HeaderAnalysis, s': ScanResult)
    requires MoreFindings(a, s, a', s')
    ensures ScoreOf(a', s') <= ScoreOf(a, s)
    ensures forall c :: c in Categories ==> BreakdownOf(a', s')[c] <= BreakdownOf(a, s)[c]
  {
    assert TotalPenalty(a, s) <= TotalPenalty(a', s');
    forall c | c in Categories
      ensures BreakdownOf(a', s')[c] <= BreakdownOf(a, s)[c]
    {
      assert RawBreakdown(a', s')[c] <= RawBreakdown(a, s)[c];
    }
  }

  /** A TLS scan that failed leaves its defaults, so it costs no points. */
  lemma FailedScanCostsNothing(a: HeaderAnalysis, s: ScanResult, msg: string)
    requires s == DefaultResult.(error := Some(msg))
    ensures ScoreOf(a, s) == Clamp(100 - MissingPenalty(a) - DeprecatedPenalty(a) - IssuePenalty(a) - WordPressPenalty(a))
    ensures BreakdownOf(a, s)[SslCategory] == 30
  {
  }

  // ---------------------------------------------------------------------
  // Risk tier
  // ---------------------------------------------------------------------

  /** The risk level: High below 40, Medium below 70, Low from 70 up. */
  function RiskLevel(score: int): (r: string)
    ensures r == "High" <==> score < 40
    ensures r == "Medium" <==> 40 <= score < 70
    ensures r == "Low" <==> 70 <= score
  {
    if score < 40 then "High" else if score < 70 then "Medium" else "Low"
  }

  /** Severity order of the tiers: Low 0, Medium 1, High 2. */
  function RiskRank(level: string): nat
  {
    if level == "High" then 2 else if level == "Medium" then 1 else 0
  }

  /** More findings never lower the risk tier. */
  lemma RiskAntitone(a: HeaderAnalysis, s: ScanResult, a': HeaderAnalysis, s': ScanResult)
    requires MoreFindings(a, s, a', s')
    ensures RiskRank(RiskLevel(ScoreOf(a, s))) <= RiskRank(RiskLevel(ScoreOf(a', s')))
  {
    ScoreAntitone(a, s, a', s');
  }

  // ---------------------------------------------------------------------
  // Recommendations
  // ---------------------------------------------------------------------

  const AddMissingMsg := "Add missing security header: "
  const RemoveDeprecatedMsg := "Remove deprecated header: "
  const CspRecMsg := "CSP issue: "
  const CookieRecMsg := "Cookie security issue: "
  const CorsRecMsg := "CORS issue: "
  const HstsRecMsg := "HSTS issue: "
  const WordPressRecMsg := "WordPress issue: "
  const WeakCipherRecMsg := "Disable weak cipher suites: "
  const CompressionRecMsg := "Disable TLS compression (CRIME vulnerability risk)"
  const SslErrorRecMsg := "Fix SSL error: "

  /** A message text as itself, for lists that are already text. */
  function Verbatim(s: string): string
  {
    s
  }

  /** From index `at` on, `r` holds one line per item, in order: `prefix`
      followed by the item's text. */
  predicate LinesAt<T>(r: seq<string>, at: nat, prefix: string, items: seq<T>, text: T -> string)
  {
    && at + |items| <= |r|
    && forall k :: 0 <= k < |items| ==> r[at + k] == prefix + text(items[k])
  }

  /** The number of lines drawn from the header analysis. */
  function HeaderLineCount(a: HeaderAnalysis): nat
  {
    |a.missingEssential| + |a.deprecated| + |a.cspIssues| + |a.cookieIssues|
    + |a.corsIssues| + |a.hstsIssues| + WordPressCount(a)
  }

  /** `r` starts with the header sections of `generate_recommendations`, one
      after the other: missing, deprecated, CSP, cookie, CORS, HSTS and, when
      the site is WordPress, WordPress. */
  predicate HeaderSections(r: seq<string>, a: HeaderAnalysis)
  {
    var deprecatedAt := |a.missingEssential|;
    var cspAt := deprecatedAt + |a.deprecated|;
    var cookieAt := cspAt + |a.cspIssues|;
    var corsAt := cookieAt + |a.cookieIssues|;
    var hstsAt := corsAt + |a.corsIssues|;
    var wordpressAt := hstsAt + |a.hstsIssues|;
    && LinesAt(r, 0, AddMissingMsg, a.missingEssential, NameOf)
    && LinesAt(r, deprecatedAt, RemoveDeprecatedMsg, a.deprecated, NameOf)
    && LinesAt(r, cspAt, CspRecMsg, a.cspIssues, Verbatim)
    && LinesAt(r, cookieAt, CookieRecMsg, a.cookieIssues, Verbatim)
    && LinesAt(r, corsAt, CorsRecMsg, a.corsIssues, Verbatim)
    && LinesAt(r, hstsAt, HstsRecMsg, a.hstsIssues, Verbatim)
    && (a.wordpressIssues.Some? ==> LinesAt(r, wordpressAt, WordPressRecMsg, a.wordpressIssues.value, Verbatim))
  }

  /** The number of TLS lines: one each for weak ciphers, compression and a
      scan error. */
  function TlsLineCount(s: ScanResult): nat
  {
    (if s.weakCiphers != [] then 1 else 0) + (if s.compressionEnabled then 1 else 0)
    + (if s.error.Some? then 1 else 0)
  }

  /** From index `at` on, `r` holds the TLS lines that apply, in order: weak
      ciphers, then compression, then the scan error. */
  predicate TlsLines(r: seq<string>, at: nat, s: ScanResult)
  {
    var compressionAt := at + (if s.weakCiphers != [] then 1 else 0);
    var errorAt := compressionAt + (if s.compressionEnabled then 1 else 0);
    && at + TlsLineCount(s) <= |r|
    && (s.weakCiphers != [] ==> r[at] == WeakCipherRecMsg + Join(s.weakCiphers, ", "))
    && (s.compressionEnabled ==> r[compressionAt] == CompressionRecMsg)
    && (s.error.Some? ==> r[errorAt] == SslErrorRecMsg + s.error.value)
  }

  /** A block of lines keeps its place when more lines follow. */
  lemma LinesAtPrefix<T>(r: seq<string>, r': seq<string>, at: nat, prefix: string, items: seq<T>, text: T -> string)
    requires r <= r' && LinesAt(r, at, prefix, items, text)
    ensures LinesAt(r', at, prefix, items, text)
  {
    forall k | 0 <= k < |items|
      ensures r'[at + k] == prefix + text(items[k])
    {
      assert r'[at + k] == r[at + k];
    }
  }

  /** The messages appended after `r` sit right after it. */
  lemma LinesAtEnd<T>(r: seq<string>, prefix: string, items: seq<T>, text: T -> string)
    ensures LinesAt(r + Messages(prefix, items, text), |r|, prefix, items, text)
  {
  }

  /** The lines drawn from the header analysis, section by section. */
  function HeaderRecommendations(a: HeaderAnalysis): (r: seq<string>)
    ensures |r| == HeaderLineCount(a)
    ensures HeaderSections(r, a)
  {
    var r1 := Messages(AddMissingMsg, a.missingEssential, NameOf);
    var r2 := r1 + Messages(RemoveDeprecatedMsg, a.deprecated, NameOf);
    var r3 := r2 + Messages(CspRecMsg, a.cspIssues, Verbatim);
    var r4 := r3 + Messages(CookieRecMsg, a.cookieIssues, Verbatim);
    var r5 := r4 + Messages(CorsRecMsg, a.corsIssues, Verbatim);
    var r6 := r5 + Messages(HstsRecMsg, a.hstsIssues, Verbatim);
    var r := r6 + (if a.wordpressIssues.Some? then Messages(WordPressRecMsg, a.wordpressIssues.value, Verbatim) else []);
    HeaderSectionsHold(a, r1, r2, r3, r4, r5, r6, r);
    r
  }

  /** A section appended after `before` keeps its place in any list that
      extends the result. */
  lemma SectionInPlace<T>(before: seq<string>, after: seq<string>, r: seq<string>,
                          prefix: string, items: seq<T>, text: T -> string)
    requires after == before + Messages(prefix, items, text) && after <= r
    ensures LinesAt(r, |before|, prefix, items, text)
  {
    LinesAtEnd(before, prefix, items, text);
    LinesAtPrefix(after, r, |before|, prefix, items, text);
  }

  /** The seven sections, appended one after the other, land where
      `HeaderSections` places them. */
  lemma HeaderSectionsHold(a: HeaderAnalysis, r1: seq<string>, r2: seq<string>, r3: seq<string>,
                           r4: seq<string>, r5: seq<string>, r6: seq<string>, r: seq<string>)
    requires r1 == Messages(AddMissingMsg, a.missingEssential, NameOf)
    requires r2 == r1 + Messages(RemoveDeprecatedMsg, a.deprecated, NameOf)
    requires r3 == r2 + Messages(CspRecMsg, a.cspIssues, Verbatim)
    requires r4 == r3 + Messages(CookieRecMsg, a.cookieIssues, Verbatim)
    requires r5 == r4 + Messages(CorsRecMsg, a.corsIssues, Verbatim)
    requires r6 == r5 + Messages(HstsRecMsg, a.hstsIssues, Verbatim)
    requires r == r6 + (if a.wordpressIssues.Some? then Messages(WordPressRecMsg, a.wordpressIssues.value, Verbatim) else [])
    ensures HeaderSections(r, a)
  {
    assert |r3| == |a.missingEssential| + |a.deprecated| + |a.cspIssues|;
    LateSectionsHold(a, r3, r4, r5, r6, r);
    EarlySectionsHold(a, r1, r2, r3, r);
  }

  /** The missing, deprecated and CSP sections, in place. */
  lemma EarlySectionsHold(a: HeaderAnalysis, r1: seq<string>, r2: seq<string>, r3: seq<string>, r: seq<string>)
    requires r1 == Messages(AddMissingMsg, a.missingEssential, NameOf)
    requires r2 == r1 + Messages(RemoveDeprecatedMsg, a.deprecated, NameOf)
    requires r3 == r2 + Messages(CspRecMsg, a.cspIssues, Verbatim)
    requires r3 <= r
    ensures LinesAt(r, 0, AddMissingMsg, a.missingEssential, NameOf)
    ensures LinesAt(r, |a.missingEssential|, RemoveDeprecatedMsg, a.deprecated, NameOf)
    ensures LinesAt(r, |a.missingEssential| + |a.deprecated|, CspRecMsg, a.cspIssues, Verbatim)
    ensures |r3| == |a.missingEssential| + |a.deprecated| + |a.cspIssues|
  {
    assert [] + r1 == r1;
    assert r2 <= r && r1 <= r;
    SectionInPlace([], r1, r, AddMissingMsg, a.missingEssential, NameOf);
    SectionInPlace(r1, r2, r, RemoveDeprecatedMsg, a.deprecated, NameOf);
    SectionInPlace(r2, r3, r, CspRecMsg, a.cspIssues, Verbatim);
  }

  /** The cookie and CORS sections, in place after the first three. */
  lemma LateSectionsHold(a: HeaderAnalysis, r3: seq<string>, r4: seq<string>, r5: seq<string>, r6: seq<string>, r: seq<string>)
    requires r4 == r3 + Messages(CookieRecMsg, a.cookieIssues, Verbatim)
    requires r5 == r4 + Messages(CorsRecMsg, a.corsIssues, Verbatim)
    requires r6 == r5 + Messages(HstsRecMsg, a.hstsIssues, Verbatim)
    requires r == r6 + (if a.wordpressIssues.Some? then Messages(WordPressRecMsg, a.wordpressIssues.value, Verbatim) else [])
    requires |r3| == |a.missingEssential| + |a.deprecated| + |a.cspIssues|
    ensures r3 <= r
    ensures var cookieAt := |a.missingEssential| + |a.deprecated| + |a.cspIssues|;
      && LinesAt(r, cookieAt, CookieRecMsg, a.cookieIssues, Verbatim)
      && LinesAt(r, cookieAt + |a.cookieIssues|, CorsRecMsg, a.corsIssues, Verbatim)
      && LinesAt(r, cookieAt + |a.cookieIssues| + |a.corsIssues|, HstsRecMsg, a.hstsIssues, Verbatim)
      && (a.wordpressIssues.Some? ==>
            LinesAt(r, cookieAt + |a.cookieIssues| + |a.corsIssues| + |a.hstsIssues|,
                    WordPressRecMsg, a.wordpressIssues.value, Verbatim))
  {
    LastSectionsHold(a, r5, r6, r);
    assert r4 <= r5 && r3 <= r4;
    SectionInPlace(r3, r4, r, CookieRecMsg, a.cookieIssues, Verbatim);
    SectionInPlace(r4, r5, r, CorsRecMsg, a.corsIssues, Verbatim);
  }

  /** The HSTS and WordPress sections, the last two. */
  lemma LastSectionsHold(a: HeaderAnalysis, r5: seq<string>, r6: seq<string>, r: seq<string>)
    requires r6 == r5 + Messages(HstsRecMsg, a.hstsIssues, Verbatim)
    requires r == r6 + (if a.wordpressIssues.Some? then Messages(WordPressRecMsg, a.wordpressIssues.value, Verbatim) else [])
    ensures r5 <= r
    ensures LinesAt(r, |r5|, HstsRecMsg, a.hstsIssues, Verbatim)
    ensures a.wordpressIssues.Some? ==>
      LinesAt(r, |r5| + |a.hstsIssues|, WordPressRecMsg, a.wordpressIssues.value, Verbatim)
  {
    assert r5 <= r6 <= r;
    SectionInPlace(r5, r6, r, HstsRecMsg, a.hstsIssues, Verbatim);
    if a.wordpressIssues.Some? {
      SectionInPlace(r6, r, r, WordPressRecMsg, a.wordpressIssues.value, Verbatim);
    }
  }

  /** At most one line each for weak ciphers, compression and a scan error,
      in that order. */
  function SslRecommendations(s: ScanResult): (r: seq<string>)
    ensures |r| == TlsLineCount(s)
    ensures TlsLines(r, 0, s)
  {
    (if s.weakCiphers != [] then [WeakCipherRecMsg + Join(s.weakCiphers, ", ")] else [])
    + (if s.compressionEnabled then [CompressionRecMsg] else [])
    + (if s.error.Some? then [SslErrorRecMsg + s.error.value] else [])
  }

  /** `generate_recommendations`: the header sections in their fixed order,
      then the TLS lines, the scan error always last. */
  function RecommendationsOf(a: HeaderAnalysis, s: ScanResult): (r: seq<string>)
    ensures |r| == HeaderLineCount(a) + TlsLineCount(s)
    ensures HeaderSections(r, a)
    ensures TlsLines(r, HeaderLineCount(a), s)
    ensures s.error.Some? ==> r[|r| - 1] == SslErrorRecMsg + s.error.value
  {
    var h := HeaderRecommendations(a);
    var t := SslRecommendations(s);
    var r := h + t;
    HeaderSectionsExtended(h, r, a);
    assert forall k :: 0 <= k < |t| ==> r[|h| + k] == t[k];
    r
  }

  /** The header sections keep their places when the TLS lines follow. */
  lemma HeaderSectionsExtended(h: seq<string>, r: seq<string>, a: HeaderAnalysis)
    requires h <= r && HeaderSections(h, a)
    ensures HeaderSections(r, a)
  {
    var deprecatedAt := |a.missingEssential|;
    var cspAt := deprecatedAt + |a.deprecated|;
    var cookieAt := cspAt + |a.cspIssues|;
    var corsAt := cookieAt + |a.cookieIssues|;
    var hstsAt := corsAt + |a.corsIssues|;
    var wordpressAt := hstsAt + |a.hstsIssues|;
    LinesAtPrefix(h, r, 0, AddMissingMsg, a.missingEssential, NameOf);
    LinesAtPrefix(h, r, deprecatedAt, RemoveDeprecatedMsg, a.deprecated, NameOf);
    LinesAtPrefix(h, r, cspAt, CspRecMsg, a.cspIssues, Verbatim);
    LinesAtPrefix(h, r, cookieAt, CookieRecMsg, a.cookieIssues, Verbatim);
    LinesAtPrefix(h, r, corsAt, CorsRecMsg, a.corsIssues, Verbatim);
    LinesAtPrefix(h, r, hstsAt, HstsRecMsg, a.hstsIssues, Verbatim);
    if a.wordpressIssues.Some? {
      LinesAtPrefix(h, r, wordpressAt, WordPressRecMsg, a.wordpressIssues.value, Verbatim);
    }
  }

  /** Appends one message per item, in order. */
  method AppendMessages<T>(lines: seq<string>, prefix: string, items: seq<T>, text: T -> string)
    returns (out: seq<string>)
    ensures out == lines + Messages(prefix, items, text)
  {
    out := lines;
    var i := 0;
    while i < |items|
      invariant 0 <= i <= |items|
      invariant out == lines + Messages(prefix, items[..i], text)
    {
      assert items[..i + 1][..i] == items[..i];
      out := out + [prefix + text(items[i])];
      i := i + 1;
    }
    assert items[..i] == items;
  }

  method GenerateRecommendations(a: HeaderAnalysis, s: ScanResult) returns (recommendations: seq<string>)
    ensures recommendations == RecommendationsOf(a, s)
  {
    recommendations := AppendMessages([], AddMissingMsg, a.missingEssential, NameOf);
    ghost var sections := Messages(AddMissingMsg, a.missingEssential, NameOf);
    assert recommendations == sections;
    recommendations := AppendMessages(recommendations, RemoveDeprecatedMsg, a.deprecated, NameOf);
    sections := sections + Messages(RemoveDeprecatedMsg, a.deprecated, NameOf);
    recommendations := AppendMessages(recommendations, CspRecMsg, a.cspIssues, Verbatim);
    sections := sections + Messages(CspRecMsg, a.cspIssues, Verbatim);
    recommendations := AppendMessages(recommendations, CookieRecMsg, a.cookieIssues, Verbatim);
    sections := sections + Messages(CookieRecMsg, a.cookieIssues, Verbatim);
    recommendations := AppendMessages(recommendations, CorsRecMsg, a.corsIssues, Verbatim);
    sections := sections + Messages(CorsRecMsg, a.corsIssues, Verbatim);
    recommendations := AppendMessages(recommendations, HstsRecMsg, a.hstsIssues, Verbatim);
    sections := sections + Messages(HstsRecMsg, a.hstsIssues, Verbatim);
    if a.wordpressIssues.Some? {
      recommendations := AppendMessages(recommendations, WordPressRecMsg, a.wordpressIssues.value, Verbatim);
      sections := sections + Messages(WordPressRecMsg, a.wordpressIssues.value, Verbatim);
    } else {
      sections := sections + [];
    }
    assert recommendations == HeaderRecommendations(a);
    recommendations := AppendSslRecommendations(recommendations, s);
  }

  /** The three optional TLS lines of `generate_recommendations`. */
  method AppendSslRecommendations(lines: seq<string>, s: ScanResult) returns (out: seq<string>)
    ensures out == lines + SslRecommendations(s)
  {
    out := lines;
    ghost var added: seq<string> := [];
    if s.weakCiphers != [] {
      out := out + [WeakCipherRecMsg + Join(s.weakCiphers, ", ")];
      added := added + [WeakCipherRecMsg + Join(s.weakCiphers, ", ")];
    }
    if s.compressionEnabled {
      out := out + [CompressionRecMsg];
      added := added + [CompressionRecMsg];
    }
    if s.error.Some? {
      out := out + [SslErrorRecMsg + s.error.value];
      added := added + [SslErrorRecMsg + s.error.value];
    }
    assert out == lines + added;
  }

  // ---------------------------------------------------------------------
  // Passed and failed checks
  // ---------------------------------------------------------------------

  /** The four headers the checklist reports on. */
  const CheckedHeaders: seq<HeaderName> :=
    [ContentSecurityPolicy, XContentTypeOptions, XFrameOptions, StrictTransportSecurity]

  const HeaderPresentMsg := "Header present: "
  const HeaderMissingMsg := "Header missing: "
  const NoWeakCiphersMsg := "No weak cipher suites"
  const WeakCiphersFoundMsg := "Weak ciphers found: "
  const CompressionOffMsg := "TLS compression disabled"
  const CompressionOnMsg := "TLS compression enabled (CRIME vulnerability risk)"

  /** The items of `items` that are in `among` (`wanted`) or are not (`!wanted`), in order. */
  function Select<T(==,!new)>(items: seq<T>, among: seq<T>, wanted: bool): (r: seq<T>)
    ensures forall x :: x in r <==> x in items && (x in among) == wanted
    decreases |items|
  {
    if items == [] then []
    else
      var init := Select(items[..|items| - 1], among, wanted);
      var last := items[|items| - 1];
      assert items == items[..|items| - 1] + [last];
      if (last in among) == wanted then init + [last] else init
  }

  /** Every item lands in exactly one of the two selections. */
  lemma {:induction false} SelectSplits<T(!new)>(items: seq<T>, among: seq<T>)
    ensures |Select(items, among, true)| + |Select(items, among, false)| == |items|
    decreases |items|
  {
    if items != [] {
      SelectSplits(items[..|items| - 1], among);
    }
  }

  /** What the header loop of `categorize_checks` appends to one of the two lists. */
  function CheckLines(prefix: string, items: seq<HeaderName>, missing: seq<HeaderName>, wanted: bool): seq<string>
    decreases |items|
  {
    if items == [] then []
    else
      var init := CheckLines(prefix, items[..|items| - 1], missing, wanted);
      var last := items[|items| - 1];
      if (last in missing) == wanted then init + [prefix + last.Name()] else init
  }

  /** The loop writes one line per selected header. */
  lemma {:induction false} CheckLinesAreMessages(prefix: string, items: seq<HeaderName>, missing: seq<HeaderName>, wanted: bool)
    ensures CheckLines(prefix, items, missing, wanted) == Messages(prefix, Select(items, missing, wanted), NameOf)
    decreases |items|
  {
    if items != [] {
      var init, last := items[..|items| - 1], items[|items| - 1];
      CheckLinesAreMessages(prefix, init, missing, wanted);
      var w := Select(init, missing, wanted);
      assert (w + [last])[..|w|] == w;
    }
  }

  /** Every checked header whose membership in `missing` matches `wanted` gets its line. */
  lemma SelectedReported(prefix: string, missing: seq<HeaderName>, wanted: bool)
    ensures forall h :: h in CheckedHeaders && (h in missing) == wanted ==>
      prefix + h.Name() in Messages(prefix, Select(CheckedHeaders, missing, wanted), NameOf)
  {
    var sel := Select(CheckedHeaders, missing, wanted);
    var msgs := Messages(prefix, sel, NameOf);
    forall h | h in CheckedHeaders && (h in missing) == wanted
      ensures prefix + h.Name() in msgs
    {
      var k :| 0 <= k < |sel| && sel[k] == h;
      assert msgs[k] == prefix + NameOf(h);
    }
  }

  /** The passed list: present headers, then the two TLS checks that pass. */
  function PassedOf(a: HeaderAnalysis, s: ScanResult): (r: seq<string>)
    ensures forall h :: h in CheckedHeaders && h !in a.missingEssential ==> HeaderPresentMsg + h.Name() in r
    ensures s.weakCiphers == [] ==> NoWeakCiphersMsg in r
    ensures !s.compressionEnabled ==> CompressionOffMsg in r
  {
    SelectedReported(HeaderPresentMsg, a.missingEssential, false);
    Messages(HeaderPresentMsg, Select(CheckedHeaders, a.missingEssential, false), NameOf)
    + (if s.weakCiphers == [] then [NoWeakCiphersMsg] else [])
    + (if !s.compressionEnabled then [CompressionOffMsg] else [])
  }

  /** The failed list: missing headers, then the two TLS checks that fail. */
  function FailedOf(a: HeaderAnalysis, s: ScanResult): (r: seq<string>)
    ensures forall h :: h in CheckedHeaders && h in a.missingEssential ==> HeaderMissingMsg + h.Name() in r
    ensures s.weakCiphers != [] ==> WeakCiphersFoundMsg + Join(s.weakCiphers, ", ") in r
    ensures s.compressionEnabled ==> CompressionOnMsg in r
  {
    SelectedReported(HeaderMissingMsg, a.missingEssential, true);
    Messages(HeaderMissingMsg, Select(CheckedHeaders, a.missingEssential, true), NameOf)
    + (if s.weakCiphers != [] then [WeakCiphersFoundMsg + Join(s.weakCiphers, ", ")] else [])
    + (if s.compressionEnabled then [CompressionOnMsg] else [])
  }

  /** Six checks are made, and each lands in exactly one of the lists
      (`SelectSplits` says which, for the headers). */
  lemma ChecksPartition(a: HeaderAnalysis, s: ScanResult)
    ensures |PassedOf(a, s)| + |FailedOf(a, s)| == 6
  {
    SelectSplits(CheckedHeaders, a.missingEssential);
  }

  /** A failed TLS scan keeps its defaults, so both TLS checks pass. */
  lemma FailedScanPassesTlsChecks(a: HeaderAnalysis, s: ScanResult, msg: string)
    requires s == DefaultResult.(error := Some(msg))
    ensures PassedOf(a, s)[|PassedOf(a, s)| - 2..] == [NoWeakCiphersMsg, CompressionOffMsg]
    ensures FailedOf(a, s) == Messages(HeaderMissingMsg, Select(CheckedHeaders, a.missingEssential, true), NameOf)
  {
  }

  method CategorizeChecks(a: HeaderAnalysis, s: ScanResult) returns (passed: seq<string>, failed: seq<string>)
    ensures passed == PassedOf(a, s) && failed == FailedOf(a, s)
  {
    passed, failed := [], [];
    var i := 0;
    while i < |CheckedHeaders|
      invariant 0 <= i <= |CheckedHeaders|
      invariant passed == CheckLines(HeaderPresentMsg, CheckedHeaders[..i], a.missingEssential, false)
      invariant failed == CheckLines(HeaderMissingMsg, CheckedHeaders[..i], a.missingEssential, true)
    {
      var header := CheckedHeaders[i];
      assert CheckedHeaders[..i + 1][..i] == CheckedHeaders[..i];
      if header !in a.missingEssential {
        passed := passed + [HeaderPresentMsg + header.Name()];
      } else {
        failed := failed + [HeaderMissingMsg + header.Name()];
      }
      i := i + 1;
    }
    assert CheckedHeaders[..i] == CheckedHeaders;
    CheckLinesAreMessages(HeaderPresentMsg, CheckedHeaders, a.missingEssential, false);
    CheckLinesAreMessages(HeaderMissingMsg, CheckedHeaders, a.missingEssential, true);
    passed, failed := AppendTlsChecks(passed, failed, s);
  }

  /** The two TLS checks of `categorize_checks`. */
  method AppendTlsChecks(passed: seq<string>, failed: seq<string>, s: ScanResult)
    returns (passed': seq<string>, failed': seq<string>)
    ensures passed' == passed + (if s.weakCiphers == [] then [NoWeakCiphersMsg] else [])
                              + (if !s.compressionEnabled then [CompressionOffMsg] else [])
    ensures failed' == failed + (if s.weakCiphers != [] then [WeakCiphersFoundMsg + Join(s.weakCiphers, ", ")] else [])
                              + (if s.compressionEnabled then [CompressionOnMsg] else [])
  {
    passed', failed' := passed, failed;
    if s.weakCiphers == [] {
      passed' := passed' + [NoWeakCiphersMsg];
    } else {
      failed' := failed' + [WeakCiphersFoundMsg + Join(s.weakCiphers, ", ")];
    }
    if !s.compressionEnabled {
      passed' := passed' + [CompressionOffMsg];
    } else {
      failed' := failed' + [CompressionOnMsg];
    }
  }
}
