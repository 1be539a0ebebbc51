/**
 * WordPress detection and the WordPress-specific findings of
 * `utils/wordpress.py`: five substring indicators decide whether a site runs
 * WordPress, and for such a site the exposed headers, the XML-RPC, REST and
 * admin-ajax endpoints and a version number leaked by the page body are
 * reported.
 */
module WordPress {
  import opened Wrappers
  import opened Text
  import opened Headers

  // ---------------------------------------------------------------------
  // Detection
  // ---------------------------------------------------------------------

  /** `any(pat in v for v in headers.values())`, case as given. */
  predicate AnyValueHas(headers: HeaderSet, pat: string)
  {
    exists k :: k in headers && Contains(headers[k], pat)
  }

  /** `any(pat in v.lower() for v in headers.values())`. */
  predicate AnyLowerValueHas(headers: HeaderSet, pat: string)
  {
    exists k :: k in headers && Contains(Lower(headers[k]), pat)
  }

  /** `check_wordpress`: any one of the five indicators.  The `x-powered-by`
      indicator is subsumed by the any-header-value one, so four decide. */
  function CheckWordPress(headers: HeaderSet, body: string): (r: bool)
    ensures r <==>
      || (Has(headers, Link) && Contains(Lower(headers[Link.Name()]), "wp-json"))
      || AnyLowerValueHas(headers, "wordpress")
      || Contains(Lower(body), "wp-content")
      || Contains(Lower(body), "wp-includes")
  {
    if Has(headers, XPoweredBy) && Contains(Lower(headers[XPoweredBy.Name()]), "wordpress") then
      PoweredBySubsumed(headers, body);
      true
    else
    || (Has(headers, Link) && Contains(Lower(headers[Link.Name()]), "wp-json"))
    || AnyLowerValueHas(headers, "wordpress")
    || Contains(Lower(body), "wp-content")
    || Contains(Lower(body), "wp-includes")
  }

  /** The `x-powered-by` indicator never decides anything on its own: the
      any-value indicator holds whenever it does. */
  lemma PoweredBySubsumed(headers: HeaderSet, body: string)
    requires Has(headers, XPoweredBy) && Contains(Lower(headers[XPoweredBy.Name()]), "wordpress")
    ensures AnyLowerValueHas(headers, "wordpress")
  {
    var k := XPoweredBy.Name();
    assert k in headers && Contains(Lower(headers[k]), "wordpress");
  }

  /** A page that names the `wp-content` or `wp-includes` directories, in any
      letter case, is detected whatever its headers. */
  lemma BodyMarkersDetected(headers: HeaderSet, body: string)
    requires Contains(body, "wp-content") || Contains(body, "wp-includes")
    ensures CheckWordPress(headers, body)
  {
    if Contains(body, "wp-content") {
      LowerContains(body, "wp-content");
      assert Lower("wp-content") == "wp-content";
    } else {
      LowerContains(body, "wp-includes");
      assert Lower("wp-includes") == "wp-includes";
    }
  }

  // ---------------------------------------------------------------------
  // Version leaks
  // ---------------------------------------------------------------------

  /** The three version patterns, in the order they are tried. */
  datatype VersionPattern = Generator | EmbedScript | BlockLibraryStyle

  const IncludesDir := "wp-includes"

  /** The literal part of each pattern, lower-case, with its escapes resolved. */
  function PatternLiteral(p: VersionPattern): string
  {
    match p
    case Generator => "wordpress "
    case EmbedScript => IncludesDir + "/js/wp-embed.js?ver="
    case BlockLibraryStyle => IncludesDir + "/css/dist/block-library/style.min.css?ver="
  }

  /** Whether the pattern has a capture group around the version. */
  predicate Grouped(p: VersionPattern)
  {
    p != Generator
  }

  const VersionPatterns: seq<VersionPattern> := [Generator, EmbedScript, BlockLibraryStyle]

  /** `[0-9.]`. */
  predicate IsVersionChar(c: char)
  {
    IsDigit(c) || c == '.'
  }

  /** The end of the longest run of version characters that starts at `from`. */
  function VersionRunEnd(s: string, from: nat): (e: nat)
    requires from <= |s|
    ensures from <= e <= |s|
    ensures forall i :: from <= i < e ==> IsVersionChar(s[i])
    ensures e == |s| || !IsVersionChar(s[e])
    decreases |s| - from
  {
    if from < |s| && IsVersionChar(s[from]) then VersionRunEnd(s, from + 1) else from
  }

  /** `lit[0-9.]+` matches at `i`, ignoring the case of ASCII letters. */
  predicate MatchAt(body: string, lit: string, i: nat)
  {
    OccursAt(Lower(body), lit, i) && i + |lit| < |body| && IsVersionChar(body[i + |lit|])
  }

  /** Where `re.search` finds `lit[0-9.]+`: the leftmost index, at or after
      `from`, at which it matches. */
  function FirstMatch(body: string, lit: string, from: nat): (r: Option<nat>)
    ensures r.Some? ==> from <= r.value && r.value + |lit| < |body|
    decreases |body| - from
  {
    if from + |lit| >= |body| then None
    else if MatchAt(body, lit, from) then Some(from)
    else FirstMatch(body, lit, from + 1)
  }

  /** The index found is a match, and no earlier index is. */
  lemma {:induction false} FirstMatchLeftmost(body: string, lit: string, from: nat)
    ensures var r := FirstMatch(body, lit, from);
      && (r.Some? ==> MatchAt(body, lit, r.value))
      && forall i: nat :: from <= i && (r.None? || i < r.value) ==> !MatchAt(body, lit, i)
    decreases |body| - from
  {
    if from + |lit| < |body| && !MatchAt(body, lit, from) {
      FirstMatchLeftmost(body, lit, from + 1);
    }
  }

  /** `match.group(1)` for a grouped pattern, `match.group(0)` otherwise. */
  function VersionIn(body: string, lit: string, grouped: bool): (r: Option<string>)
    ensures r.Some? ==> |r.value| > 0 && Contains(body, r.value)
  {
    match FirstMatch(body, lit, 0)
    case None => None
    case Some(i) =>
      FirstMatchLeftmost(body, lit, 0);
      var e := VersionRunEnd(body, i + |lit|);
      var start := if grouped then i + |lit| else i;
      assert OccursAt(body, body[start..e], start);
      Some(body[start..e])
  }

  /** The version the first matching pattern reports; later patterns are not
      tried.  `literal` gives each pattern's literal part. */
  function FirstVersion(body: string, patterns: seq<VersionPattern>, literal: VersionPattern -> string): (r: Option<string>)
    ensures r.None? <==> forall k :: 0 <= k < |patterns| ==> VersionIn(body, literal(patterns[k]), Grouped(patterns[k])).None?
    ensures r.Some? ==> exists k :: 0 <= k < |patterns| && VersionIn(body, literal(patterns[k]), Grouped(patterns[k])) == r
                                    && forall j :: 0 <= j < k ==> VersionIn(body, literal(patterns[j]), Grouped(patterns[j])).None?
    ensures r.Some? ==> |r.value| > 0 && Contains(body, r.value)
    decreases |patterns|
  {
    if patterns == [] then None
    else match VersionIn(body, literal(patterns[0]), Grouped(patterns[0]))
      case Some(v) => Some(v)
      case None =>
        var r := FirstVersion(body, patterns[1..], literal);
        assert forall k :: 1 <= k < |patterns| ==> patterns[1..][k - 1] == patterns[k];
        if r.Some? then
          var k :| 0 <= k < |patterns[1..]| && VersionIn(body, literal(patterns[1..][k]), Grouped(patterns[1..][k])) == r
            && forall j :: 0 <= j < k ==> VersionIn(body, literal(patterns[1..][j]), Grouped(patterns[1..][j])).None?;
          assert VersionIn(body, literal(patterns[k + 1]), Grouped(patterns[k + 1])) == r;
          r
        else r
  }

  /** The version the page leaks, if any: a non-empty piece of the page
      itself, taken as the page wrote it. */
  function VersionLeak(body: string): (r: Option<string>)
    ensures r.Some? ==> |r.value| > 0 && Contains(body, r.value)
  {
    FirstVersion(body, VersionPatterns, PatternLiteral)
  }

  /** A grouped pattern reports a non-empty run of digits and dots. */
  lemma GroupedVersionShape(body: string, lit: string)
    requires VersionIn(body, lit, true).Some?
    ensures forall i :: 0 <= i < |VersionIn(body, lit, true).value| ==> IsVersionChar(VersionIn(body, lit, true).value[i])
  {
    var i := FirstMatch(body, lit, 0).value;
    var e := VersionRunEnd(body, i + |lit|);
    assert VersionIn(body, lit, true).value == body[i + |lit|..e];
  }

  /** A page that starts with a pattern's literal, in any letter case, then
      a version, then anything but a version character, reports exactly that
      version; an ungrouped pattern reports the literal as the page wrote it. */
  lemma VersionRoundTrip(word: string, lit: string, v: string, rest: string, grouped: bool)
    requires Lower(word) == lit
    requires |v| > 0 && forall i :: 0 <= i < |v| ==> IsVersionChar(v[i])
    requires rest == [] || !IsVersionChar(rest[0])
    ensures VersionIn(word + v + rest, lit, grouped) == Some(if grouped then v else word + v)
  {
    var body := word + v + rest;
    assert body[..|word|] == word;
    assert Lower(body)[0..|lit|] == Lower(word);
    assert body[|lit|] == v[0];
    assert MatchAt(body, lit, 0);
    var e := VersionRunEnd(body, |lit|);
    forall i | |lit| <= i < |lit| + |v| ensures IsVersionChar(body[i]) {
      assert body[i] == v[i - |lit|];
    }
    assert rest != [] ==> body[|lit| + |v|] == rest[0];
    assert e == |lit| + |v|;
    assert body[|lit|..e] == v;
    assert body[0..e] == word + v;
  }

  /** A page that starts `WordPress <version>`, in any letter case, leaks
      the phrase as written. */
  lemma GeneratorRoundTrip(word: string, v: string, rest: string)
    requires Lower(word) == PatternLiteral(Generator)
    requires |v| > 0 && forall i :: 0 <= i < |v| ==> IsVersionChar(v[i])
    requires rest == [] || !IsVersionChar(rest[0])
    ensures VersionLeak(word + v + rest) == Some(word + v)
  {
    VersionRoundTrip(word, PatternLiteral(Generator), v, rest, false);
  }

  /** Both file-path patterns start with the `wp-includes` directory. */
  lemma PathPatternsNameIncludes(p: VersionPattern)
    requires Grouped(p)
    ensures StartsWith(PatternLiteral(p), IncludesDir)
  {
    var lit := PatternLiteral(p);
    assert lit[..|IncludesDir|] == IncludesDir;
  }

  /** A page that leaks its version through a pattern starting with
      `wp-includes` is also detected as WordPress. */
  lemma PathVersionDetected(headers: HeaderSet, body: string, lit: string, grouped: bool)
    requires StartsWith(lit, IncludesDir) && VersionIn(body, lit, grouped).Some?
    ensures CheckWordPress(headers, body)
  {
    var i := FirstMatch(body, lit, 0).value;
    FirstMatchLeftmost(body, lit, 0);
    assert OccursAt(Lower(body), lit, i);
    assert OccursAt(lit, IncludesDir, 0);
    ContainsTrans(Lower(body), lit, IncludesDir);
  }

  /** The two file-path patterns name `wp-includes`, so a page that leaks its
      version through either of them is also detected as WordPress. */
  lemma PathVersionLeakDetected(headers: HeaderSet, body: string, p: VersionPattern)
    requires Grouped(p) && VersionIn(body, PatternLiteral(p), true).Some?
    ensures CheckWordPress(headers, body)
  {
    PathPatternsNameIncludes(p);
    PathVersionDetected(headers, body, PatternLiteral(p), true);
  }

  // ---------------------------------------------------------------------
  // Findings
  // ---------------------------------------------------------------------

  const ExposedHeaders: seq<HeaderName> := [XWpCron, XRedirectBy, XPingback]

  const HeaderExposedMsg := "WordPress header exposed: "
  const PingbackMsg := "XML-RPC pingback endpoint exposed (consider disabling if not needed)"
  const RestApiMsg := "WordPress REST API endpoint exposed (consider restricting access if not needed)"
  const AdminAjaxMsg := "WordPress admin-ajax.php endpoint exposed (consider rate limiting)"

  function VersionMsg(version: string): string
  {
    "WordPress version " + version + " exposed in HTML"
  }

  /** What the header loop appends: `prefix` and the key of every item whose
      key the response carries. */
  function ExposedLoop<T>(prefix: string, items: seq<T>, key: T -> string, headers: HeaderSet): (r: seq<string>)
    ensures |r| <= |items|
    decreases |items|
  {
    if items == [] then []
    else
      var init := ExposedLoop(prefix, items[..|items| - 1], key, headers);
      var last := items[|items| - 1];
      if key(last) in headers then init + [prefix + key(last)] else init
  }

  /** The header loop reports exactly the listed headers the response carries. */
  lemma {:induction false} ExposedLoopIsFilter<T(!new)>(prefix: string, items: seq<T>, key: T -> string, headers: HeaderSet)
    ensures ExposedLoop(prefix, items, key, headers) == Messages(prefix, KeysWhere(items, key, headers, true), key)
    decreases |items|
  {
    if items != [] {
      var init, last := items[..|items| - 1], items[|items| - 1];
      ExposedLoopIsFilter(prefix, init, key, headers);
      assert items == init + [last];
      var w := KeysWhere(init, key, headers, true);
      assert (w + [last])[..|w|] == w;
    }
  }

  /** The three endpoint findings, in the order they are appended: the
      XML-RPC one first, then the REST one, then the admin-ajax one. */
  function EndpointIssues(pingback: bool, restApi: bool, adminAjax: bool): (r: seq<string>)
    ensures |r| == (if pingback then 1 else 0) + (if restApi then 1 else 0) + (if adminAjax then 1 else 0)
    ensures PingbackMsg in r <==> pingback
    ensures RestApiMsg in r <==> restApi
    ensures AdminAjaxMsg in r <==> adminAjax
    ensures pingback ==> r[0] == PingbackMsg
    ensures restApi ==> r[if pingback then 1 else 0] == RestApiMsg
    ensures adminAjax ==> r[|r| - 1] == AdminAjaxMsg
  {
    assert |PingbackMsg| == 68 && |RestApiMsg| == 79 && |AdminAjaxMsg| == 66;
    (if pingback then [PingbackMsg] else [])
    + (if restApi then [RestApiMsg] else [])
    + (if adminAjax then [AdminAjaxMsg] else [])
  }

  /** `"x-pingback" in headers`. */
  predicate PingbackExposed(headers: HeaderSet)
  {
    Has(headers, XPingback)
  }

  /** `"link" in headers and "wp-json" in headers["link"]`, case as given. */
  predicate RestApiExposed(headers: HeaderSet)
  {
    Has(headers, Link) && Contains(headers[Link.Name()], "wp-json")
  }

  /** `any("admin-ajax.php" in v for v in headers.values())`. */
  predicate AdminAjaxExposed(headers: HeaderSet)
  {
    AnyValueHas(headers, "admin-ajax.php")
  }

  /** The findings that come from the headers alone: the exposed headers
      first, then the endpoint findings. */
  function HeaderFindings(headers: HeaderSet): (r: seq<string>)
    ensures |r| <= 6
    ensures var x := ExposedLoop(HeaderExposedMsg, ExposedHeaders, NameOf, headers);
      && |x| <= |r|
      && r[..|x|] == x
      && r[|x|..] == EndpointIssues(PingbackExposed(headers), RestApiExposed(headers), AdminAjaxExposed(headers))
  {
    var x := ExposedLoop(HeaderExposedMsg, ExposedHeaders, NameOf, headers);
    var e := EndpointIssues(PingbackExposed(headers), RestApiExposed(headers), AdminAjaxExposed(headers));
    assert (x + e)[..|x|] == x && (x + e)[|x|..] == e;
    x + e
  }

  /** At most one version finding, from the first pattern that matches. */
  function VersionFindings(version: Option<string>): (r: seq<string>)
    ensures |r| <= 1
  {
    match version
    case None => []
    case Some(v) => [VersionMsg(v)]
  }

  /** The findings of `analyze_wordpress_headers`, in the order it appends
      them: header exposures, then the pingback, REST and admin-ajax
      findings, then the leaked version, always last. */
  function WordPressIssues(headers: HeaderSet, body: string): (r: seq<string>)
    ensures |r| <= 7
    ensures var x := |ExposedLoop(HeaderExposedMsg, ExposedHeaders, NameOf, headers)|;
      var p := if PingbackExposed(headers) then 1 else 0;
      var q := p + (if RestApiExposed(headers) then 1 else 0);
      var e := q + (if AdminAjaxExposed(headers) then 1 else 0);
      && |r| == x + e + (if VersionLeak(body).Some? then 1 else 0)
      && r[..x] == ExposedLoop(HeaderExposedMsg, ExposedHeaders, NameOf, headers)
      && (PingbackExposed(headers) ==> r[x] == PingbackMsg)
      && (RestApiExposed(headers) ==> r[x + p] == RestApiMsg)
      && (AdminAjaxExposed(headers) ==> r[x + q] == AdminAjaxMsg)
      && (VersionLeak(body).Some? ==> r[x + e] == VersionMsg(VersionLeak(body).value))
  {
    var h := HeaderFindings(headers);
    var v := VersionFindings(VersionLeak(body));
    assert (h + v)[..|h|] == h;
    h + v
  }

  /** The header loop of `analyze_wordpress_headers`. */
  method AppendExposed<T>(issues: seq<string>, prefix: string, items: seq<T>, key: T -> string, headers: HeaderSet)
    returns (out: seq<string>)
    ensures out == issues + ExposedLoop(prefix, items, key, headers)
  {
    out := issues;
    var i := 0;
    while i < |items|
      invariant 0 <= i <= |items|
      invariant out == issues + ExposedLoop(prefix, items[..i], key, headers)
    {
      var header := items[i];
      assert items[..i + 1][..i] == items[..i];
      if key(header) in headers {
        out := out + [prefix + key(header)];
      }
      i := i + 1;
    }
    assert items[..i] == items;
  }

  /** The pattern loop of `analyze_wordpress_headers`: the first pattern that
      matches reports its version, and the loop stops there. */
  method FindVersion(body: string, patterns: seq<VersionPattern>, literal: VersionPattern -> string)
    returns (version: Option<string>)
    ensures version == FirstVersion(body, patterns, literal)
  {
    var i := 0;
    while i < |patterns|
      invariant 0 <= i <= |patterns|
      invariant FirstVersion(body, patterns, literal) == FirstVersion(body, patterns[i..], literal)
    {
      var found := VersionIn(body, literal(patterns[i]), Grouped(patterns[i]));
      assert patterns[i..][1..] == patterns[i + 1..];
      if found.Some? {
        return found;
      }
      i := i + 1;
    }
    return None;
  }

  /** The three endpoint tests of `analyze_wordpress_headers`, once decided. */
  method AppendEndpointIssues(issues: seq<string>, pingback: bool, restApi: bool, adminAjax: bool)
    returns (out: seq<string>)
    ensures out == issues + EndpointIssues(pingback, restApi, adminAjax)
  {
    out := issues;
    if pingback {
      out := out + [PingbackMsg];
    }
    if restApi {
      out := out + [RestApiMsg];
    }
    if adminAjax {
      out := out + [AdminAjaxMsg];
    }
  }

  /** The header half of `analyze_wordpress_headers`. */
  method FindHeaderIssues(headers: HeaderSet) returns (issues: seq<string>)
    ensures issues == HeaderFindings(headers)
  {
    issues := AppendExposed([], HeaderExposedMsg, ExposedHeaders, NameOf, headers);
    var pingback := XPingback.Name() in headers;
    var restApi := Link.Name() in headers && Contains(headers[Link.Name()], "wp-json");
    var adminAjax := AnyValueHas(headers, "admin-ajax.php");
    issues := AppendEndpointIssues(issues, pingback, restApi, adminAjax);
  }

  method AnalyzeWordPressHeaders(headers: HeaderSet, body: string) returns (issues: seq<string>)
    ensures issues == WordPressIssues(headers, body)
  {
    issues := FindHeaderIssues(headers);
    var version := FindVersion(body, VersionPatterns, PatternLiteral);
    if version.Some? {
      issues := issues + [VersionMsg(version.value)];
    }
  }

  /** Every listed WordPress header the response carries is reported by name. */
  lemma ExposedReported(headers: HeaderSet, h: HeaderName)
    requires h in ExposedHeaders && Has(headers, h)
    ensures HeaderExposedMsg + h.Name() in HeaderFindings(headers)
  {
    ExposedLoopIsFilter(HeaderExposedMsg, ExposedHeaders, NameOf, headers);
    var w := KeysWhere(ExposedHeaders, NameOf, headers, true);
    var k :| 0 <= k < |w| && w[k] == h;
    assert Messages(HeaderExposedMsg, w, NameOf)[k] == HeaderExposedMsg + h.Name();
  }

  /** The exposures of `x-wp-cron` and `x-redirect-by`, which come before
      that of `x-pingback`. */
  function EarlyExposures(headers: HeaderSet): seq<string>
  {
    (if Has(headers, XWpCron) then [HeaderExposedMsg + "x-wp-cron"] else [])
    + (if Has(headers, XRedirectBy) then [HeaderExposedMsg + "x-redirect-by"] else [])
  }

  /** The REST and admin-ajax findings, which come after the XML-RPC one. */
  function LateEndpoints(headers: HeaderSet): seq<string>
  {
    (if RestApiExposed(headers) then [RestApiMsg] else [])
    + (if AdminAjaxExposed(headers) then [AdminAjaxMsg] else [])
  }

  /** The header loop over the three listed headers, written out. */
  lemma ExposedThree(headers: HeaderSet)
    ensures ExposedLoop(HeaderExposedMsg, ExposedHeaders, NameOf, headers)
      == EarlyExposures(headers) + (if Has(headers, XPingback) then [HeaderExposedMsg + "x-pingback"] else [])
  {
    assert ExposedHeaders[..2] == [XWpCron, XRedirectBy];
    assert ExposedHeaders[..2][..1] == [XWpCron];
    assert ExposedHeaders[..2][..1][..0] == [];
  }

  /** The header findings: the exposures, then the endpoint findings. */
  lemma FindingsSplit(headers: HeaderSet)
    ensures HeaderFindings(headers)
      == ExposedLoop(HeaderExposedMsg, ExposedHeaders, NameOf, headers)
         + ((if Has(headers, XPingback) then [PingbackMsg] else []) + LateEndpoints(headers))
  {
  }

  /** An `x-pingback` header draws exactly two findings, each once: its
      exposure and the XML-RPC endpoint. */
  lemma PingbackReportedTwice(headers: HeaderSet)
    requires Has(headers, XPingback)
    ensures multiset(HeaderFindings(headers))[HeaderExposedMsg + "x-pingback"] == 1
    ensures multiset(HeaderFindings(headers))[PingbackMsg] == 1
  {
    ExposedThree(headers);
    FindingsSplit(headers);
    PingbackMessagesElsewhere(headers);
    OccursOnceEach(EarlyExposures(headers), HeaderExposedMsg + "x-pingback", PingbackMsg, LateEndpoints(headers));
  }

  /** Neither finding of `x-pingback` is among the other header findings. */
  lemma PingbackMessagesElsewhere(headers: HeaderSet)
    ensures HeaderExposedMsg + "x-pingback" != PingbackMsg
    ensures HeaderExposedMsg + "x-pingback" !in EarlyExposures(headers) + LateEndpoints(headers)
    ensures PingbackMsg !in EarlyExposures(headers) + LateEndpoints(headers)
  {
    assert |HeaderExposedMsg + "x-wp-cron"| == 35 && |HeaderExposedMsg + "x-redirect-by"| == 39;
    assert |HeaderExposedMsg + "x-pingback"| == 36;
    assert |PingbackMsg| == 68 && |RestApiMsg| == 79 && |AdminAjaxMsg| == 66;
  }

  /** Two distinct elements found in neither part occur once each when
      placed between them. */
  lemma OccursOnceEach<T>(a: seq<T>, p: T, q: T, b: seq<T>)
    requires p != q && p !in a + b && q !in a + b
    ensures multiset((a + [p]) + ([q] + b))[p] == 1
    ensures multiset((a + [p]) + ([q] + b))[q] == 1
  {
    assert multiset((a + [p]) + ([q] + b)) == multiset(a) + multiset{p} + multiset{q} + multiset(b);
  }

  /** Without the `x-pingback` header neither of its findings is reported,
      and the list is two shorter, or three when `x-pingback` was the only
      header whose value named `admin-ajax.php`. */
  lemma PingbackRemoved(headers: HeaderSet)
    requires Has(headers, XPingback)
    ensures var without := headers - {XPingback.Name()};
      && HeaderExposedMsg + "x-pingback" !in HeaderFindings(without)
      && PingbackMsg !in HeaderFindings(without)
      && |HeaderFindings(headers)| == |HeaderFindings(without)| + 2
           + (if AdminAjaxExposed(headers) && !AdminAjaxExposed(without) then 1 else 0)
  {
    var without := headers - {XPingback.Name()};
    PingbackFindings(headers);
    PingbackFindings(without);
    RemovalKeepsEarly(headers);
    RemovalKeepsLate(headers);
  }

  /** The header findings count two for `x-pingback` on top of the other
      exposures and endpoints, and name it exactly when it is present. */
  lemma PingbackFindings(headers: HeaderSet)
    ensures |HeaderFindings(headers)|
      == |EarlyExposures(headers)| + (if Has(headers, XPingback) then 2 else 0) + |LateEndpoints(headers)|
    ensures HeaderExposedMsg + "x-pingback" in HeaderFindings(headers) <==> Has(headers, XPingback)
    ensures PingbackMsg in HeaderFindings(headers) <==> Has(headers, XPingback)
  {
    ExposedThree(headers);
    FindingsSplit(headers);
    PingbackMessagesElsewhere(headers);
  }

  /** Dropping `x-pingback` changes no other exposure. */
  lemma RemovalKeepsEarly(headers: HeaderSet)
    ensures var without := headers - {XPingback.Name()};
      !Has(without, XPingback) && EarlyExposures(without) == EarlyExposures(headers)
  {
    var without := headers - {XPingback.Name()};
    assert Has(without, XWpCron) == Has(headers, XWpCron);
    assert Has(without, XRedirectBy) == Has(headers, XRedirectBy);
  }

  /** Dropping `x-pingback` keeps the REST finding and can only withdraw the
      admin-ajax one. */
  lemma RemovalKeepsLate(headers: HeaderSet)
    ensures var without := headers - {XPingback.Name()};
      |LateEndpoints(headers)| == |LateEndpoints(without)|
        + (if AdminAjaxExposed(headers) && !AdminAjaxExposed(without) then 1 else 0)
  {
    var without := headers - {XPingback.Name()};
    assert RestApiExposed(without) == RestApiExposed(headers);
    assert AdminAjaxExposed(without) ==> AdminAjaxExposed(headers);
  }

  /** A `link` header that names `wp-json` both draws the REST API finding
      and, being case-insensitively the same test, makes detection succeed. */
  lemma RestApiDetected(headers: HeaderSet, body: string)
    requires Has(headers, Link) && Contains(headers[Link.Name()], "wp-json")
    ensures RestApiMsg in HeaderFindings(headers)
    ensures CheckWordPress(headers, body)
  {
    LowerContains(headers[Link.Name()], "wp-json");
    assert Lower("wp-json") == "wp-json";
  }
}
