# CyberHeaders security-assessment core, in Dafny

CyberHeaders is a Django service that scans a website and reports on its
HTTP security headers, its TLS setup and, for WordPress sites, the
WordPress-specific exposures. This project models the deterministic core
of that service and proves properties of it:

- **Headers** (`utils/headers.py`): the essential headers a response lacks
  and the deprecated ones it carries, the substring rules over
  Content-Security-Policy, Set-Cookie, Access-Control-Allow-Origin and
  Strict-Transport-Security, and the two boolean summaries.
- **WordPress** (`utils/wordpress.py`): the five detection indicators, the
  exposed-header and endpoint findings, and the first-match version scan.
- **Tls** (`utils/ssl.py`): the weak-cipher filter, the result record with
  its defaults, and the error path. The handshake is an input.
- **Analysis** (`utils/analysis.py`): the security score and its
  per-category breakdown, the risk tier, the recommendation list and the
  passed/failed checklist.
- **RateLimit** (`middleware/rate_limit.py`): rate parsing, the per-key
  rate lookup and the accept/reject/count decision over the counter store.
  The middleware is a class whose `store` field its `Call` method updates.
- **Report** (`utils/pdf.py`, helpers only): colour, status and priority
  tiers, the risk lookups, the truncation rule, the section counter
  (a class with mutable fields) and the formatting of the generated
  analysis text.
- **Text** and **Wrappers**: the Python string operations the rules rely
  on (`in`, `split`, `join`, `strip`, `lower`, `replace`, `int`, `str`),
  with Python's semantics, and `Option`/`Result`.

The code builds issue lists by appending in loops, and the model does the
same. Such code is a method with a loop, proved equal to a function that
states the list. What the source promises is then proved about that
function: counts, orderings, exclusions, round trips and monotonicity.

Where the code and the intended design of the service part ways, the model
follows the code. In particular, after a failed TLS probe, the code keeps
the defaults of the result record (`weak_ciphers = []`,
`compression_enabled = False`) rather than leaving them unknown. So a
failed probe costs no points and passes both TLS checks
(`Analysis.FailedScanCostsNothing`, `Analysis.FailedScanPassesTlsChecks`).

## Model

| member | source | states |
|---|---|---|
| Text.Strip | CyberHeaders/CyberHeaders/api/utils/headers.py:94 | `str.strip()`: the result is a substring of the input that neither starts nor ends with whitespace, and is empty exactly when the input is all whitespace |
| Text.Find | CyberHeaders/CyberHeaders/api/middleware/rate_limit.py:41 | the index found is an occurrence, and there is no occurrence before it |
| Text.SplitJoin | CyberHeaders/CyberHeaders/api/middleware/rate_limit.py:44 | `sep.join(s.split(sep)) == s`: splitting loses nothing |
| Text.SplitParts | CyberHeaders/CyberHeaders/api/utils/headers.py:94 | every piece of a split is a substring of the input and holds no separator |
| Text.LowerContains | CyberHeaders/CyberHeaders/api/utils/wordpress.py:8-12 | lower-casing keeps substring containment |
| Text.DecimalRoundTrip | CyberHeaders/CyberHeaders/api/utils/headers.py:126-128 | reading back the decimal digits of `str(n)` gives `n` |
| Text.ParseIntRoundTrip | CyberHeaders/CyberHeaders/api/middleware/rate_limit.py:42 | `int(str(n)) == n` |
| Text.ParseIntDigits | CyberHeaders/CyberHeaders/api/middleware/rate_limit.py:45 | `int` reads a non-empty run of digits as its decimal value |
| Headers.MissingEssential | CyberHeaders/CyberHeaders/api/utils/headers.py:32-44 | a header is listed exactly when it is essential and absent; with no essential header present, the result is the whole list in its order |
| Headers.KeysWhereInOrder | CyberHeaders/CyberHeaders/api/utils/headers.py:44 | the comprehension keeps the list order (the result is a subsequence of the list) |
| Headers.Deprecated | CyberHeaders/CyberHeaders/api/utils/headers.py:47-55 | a header is listed exactly when it is deprecated and present; none is also reported missing |
| Headers.CspIssues | CyberHeaders/CyberHeaders/api/utils/headers.py:72-90 | at most 3 + 4 + 5 = 12 issues |
| Headers.AppendIssues | CyberHeaders/CyberHeaders/api/utils/headers.py:78-88 | one loop of `analyze_csp` appends exactly what the loop specification lists |
| Headers.LoopIssuesAreMessages | CyberHeaders/CyberHeaders/api/utils/headers.py:78-88 | a loop's messages are one per token whose presence in the policy matches, in list order |
| Headers.WhereInOrder | CyberHeaders/CyberHeaders/api/utils/headers.py:78-88 | the tokens reported keep the order of their list |
| Headers.AnalyzeCsp | CyberHeaders/CyberHeaders/api/utils/headers.py:72-90 | the three loops produce the unsafe block, then the missing-directive block, then the permissive-source block |
| Headers.QuotedContainsKeyword | CyberHeaders/CyberHeaders/api/utils/headers.py:74-76 | a policy containing `'unsafe-inline'` contains `unsafe-inline` |
| Headers.QuotedUnsafeInlineImpliesKeyword | CyberHeaders/CyberHeaders/api/utils/headers.py:78-88 | the `'unsafe-inline'` permissive-source issue never comes without the `unsafe-inline` unsafe-directive issue |
| Headers.CspMonotone | CyberHeaders/CyberHeaders/api/utils/headers.py:78-88 | a policy embedded in a larger text keeps every unsafe and permissive finding and gains no missing directive |
| Headers.EmptyPolicy | CyberHeaders/CyberHeaders/api/utils/headers.py:72-90 | an empty policy draws exactly the four missing-directive issues |
| Headers.TokensAbsent | CyberHeaders/CyberHeaders/api/utils/headers.py:74-76 | a policy without the characters n, i, b, h, `*` and `:` (such as `default-src 'self'`) contains no rule token other than `default-src` |
| Headers.ThreeDirectivesMissing | CyberHeaders/CyberHeaders/api/utils/headers.py:82-84 | naming `default-src` but not the other three directives gives exactly the issues for `script-src`, `object-src` and `base-uri`, in order |
| Headers.OnlyDefaultSrc | CyberHeaders/CyberHeaders/api/utils/headers.py:72-90 | a policy that names `default-src` and no other rule token draws exactly the three missing-directive issues |
| Headers.CookieAttributes | CyberHeaders/CyberHeaders/api/utils/headers.py:94 | splitting on `;` always yields at least one attribute |
| Headers.FirstAttributeWith | CyberHeaders/CyberHeaders/api/utils/headers.py:102 | `next(...)` is `None` exactly when no attribute mentions the pattern; otherwise it returns the first attribute, in order, that does |
| Headers.CookieIssuesOf | CyberHeaders/CyberHeaders/api/utils/headers.py:96-109 | at most 4 issues; "Missing SameSite" and "SameSite=None without Secure" never both occur; the latter implies "Missing Secure flag" |
| Headers.CookieIssues | CyberHeaders/CyberHeaders/api/utils/headers.py:92-111 | the same three facts for `analyze_cookies` on any header |
| Headers.AppendCookieIssues | CyberHeaders/CyberHeaders/api/utils/headers.py:96-109 | the appends produce the issue list in source order |
| Headers.AnalyzeCookies | CyberHeaders/CyberHeaders/api/utils/headers.py:92-111 | the method computes `CookieIssues` |
| Headers.NoAttributeHas | CyberHeaders/CyberHeaders/api/utils/headers.py:94-108 | a pattern absent from the lower-cased header is absent from every stripped attribute |
| Headers.BareCookie | CyberHeaders/CyberHeaders/api/utils/headers.py:92-111 | a cookie that never mentions secure, httponly or samesite (such as `session=abc; Path=/`) draws exactly [Missing Secure, Missing HttpOnly, Missing SameSite], plus the domain issue only if it mentions `domain=` |
| Headers.CorsIssues | CyberHeaders/CyberHeaders/api/utils/headers.py:113-117 | at most one issue, and one exactly when the value is `*` |
| Headers.AnalyzeCors | CyberHeaders/CyberHeaders/api/utils/headers.py:113-117 | the method computes `CorsIssues` |
| Headers.MaxAgeMatch | CyberHeaders/CyberHeaders/api/utils/headers.py:124 | `re.search(r"max-age=(\d+)")` finds the leftmost `max-age=` followed by a digit |
| Headers.HstsMaxAgeIssues | CyberHeaders/CyberHeaders/api/utils/headers.py:121-128 | at most one issue; the missing-directive issue exactly when `max-age` is absent (case-sensitive) |
| Headers.HstsSubdomainIssues | CyberHeaders/CyberHeaders/api/utils/headers.py:130-131 | no issue exactly when the lower-cased value contains `includesubdomains` |
| Headers.HstsIssues | CyberHeaders/CyberHeaders/api/utils/headers.py:119-132 | at most two issues |
| Headers.AnalyzeHsts | CyberHeaders/CyberHeaders/api/utils/headers.py:119-132 | the method computes `HstsIssues` |
| Headers.MaxAgeWithoutDigits | CyberHeaders/CyberHeaders/api/utils/headers.py:121-128 | a `max-age` that no digit follows raises no too-short issue |
| Headers.MaxAgeRoundTrip | CyberHeaders/CyberHeaders/api/utils/headers.py:124-126 | the search reads back the `n` of `max-age=<n>` followed by a non-digit |
| Headers.HstsAgeThreshold | CyberHeaders/CyberHeaders/api/utils/headers.py:124-128 | `max-age=<n>` draws the too-short issue, naming `n`, exactly when `n < 31536000` |
| Headers.HstsVerdict | CyberHeaders/CyberHeaders/api/utils/headers.py:119-132 | the whole verdict on `max-age=<n>...`: too short below one year, then missing `includeSubDomains` unless named (so `max-age=100` gives two issues, `max-age=31536000; includeSubDomains` none) |
| Headers.CheckAdditionalHeaders | CyberHeaders/CyberHeaders/api/utils/headers.py:134-140 | each of the four entries (`clear_site_data`, `report_to`, `feature_policy`, `expect_ct`) holds exactly when its header is present |
| Headers.CheckOwaspCompliance | CyberHeaders/CyberHeaders/api/utils/headers.py:142-154 | `x_content_type_options` holds exactly when the header is present and lower-cases to `nosniff` |
| Headers.OwaspAgreesWithMissing | CyberHeaders/CyberHeaders/api/utils/headers.py:142-154 | every other OWASP entry holds exactly when that header is not reported missing; `x_content_type_options` implies it |
| Headers.AnalysisOf | CyberHeaders/CyberHeaders/api/utils/headers.py:18-70 | `insecure` is always empty; each issue list is empty unless its header is present; missing and deprecated are disjoint |
| Headers.AnalyzeHeaders | CyberHeaders/CyberHeaders/api/utils/headers.py:18-70 | the field-by-field filling computes `AnalysisOf` |
| WordPress.CheckWordPress | CyberHeaders/CyberHeaders/api/utils/wordpress.py:6-14 | detection holds exactly when `link` names `wp-json`, some header value names `wordpress`, or the page names `wp-content` or `wp-includes`, all in any letter case: the `x-powered-by` indicator never decides alone (`WordPress.PoweredBySubsumed`); `WordPress.BodyMarkersDetected` and `WordPress.RestApiDetected` apply it |
| WordPress.PoweredBySubsumed | CyberHeaders/CyberHeaders/api/utils/wordpress.py:8-10 | the `x-powered-by` indicator implies the any-header-value indicator |
| WordPress.BodyMarkersDetected | CyberHeaders/CyberHeaders/api/utils/wordpress.py:11-12 | a body naming `wp-content` or `wp-includes` is detected whatever the headers |
| WordPress.VersionRunEnd | CyberHeaders/CyberHeaders/api/utils/wordpress.py:35-37 | `[0-9.]+` is greedy: the run ends at the first character outside the class |
| WordPress.FirstMatchLeftmost | CyberHeaders/CyberHeaders/api/utils/wordpress.py:41 | the search returns a match, and no earlier index matches |
| WordPress.VersionIn | CyberHeaders/CyberHeaders/api/utils/wordpress.py:41-43 | a reported version is never empty and is a piece of the page itself |
| WordPress.FirstVersion | CyberHeaders/CyberHeaders/api/utils/wordpress.py:40-45 | none exactly when no pattern matches; otherwise the version of the first pattern, in list order, that matches (every earlier pattern fails), and it occurs in the page |
| WordPress.VersionLeak | CyberHeaders/CyberHeaders/api/utils/wordpress.py:34-45 | a leaked version is non-empty and occurs in the page as written |
| WordPress.GroupedVersionShape | CyberHeaders/CyberHeaders/api/utils/wordpress.py:36-43 | a captured version consists of digits and dots only |
| WordPress.VersionRoundTrip | CyberHeaders/CyberHeaders/api/utils/wordpress.py:41-43 | a page starting with a pattern's literal (any case) and a version reports that version; an ungrouped pattern reports the whole match as written |
| WordPress.GeneratorRoundTrip | CyberHeaders/CyberHeaders/api/utils/wordpress.py:35-45 | `WordPress <version>` at the start of the page is the leak reported, as written |
| WordPress.PathPatternsNameIncludes | CyberHeaders/CyberHeaders/api/utils/wordpress.py:36-37 | both file-path patterns start with `wp-includes` |
| WordPress.PathVersionDetected | CyberHeaders/CyberHeaders/api/utils/wordpress.py:12 | a version leaked through a `wp-includes` pattern implies detection |
| WordPress.PathVersionLeakDetected | CyberHeaders/CyberHeaders/api/utils/wordpress.py:34-45 | a version leaked through either file-path pattern implies detection |
| WordPress.ExposedLoop | CyberHeaders/CyberHeaders/api/utils/wordpress.py:20-22 | the header loop appends at most one issue per listed header |
| WordPress.ExposedLoopIsFilter | CyberHeaders/CyberHeaders/api/utils/wordpress.py:18-22 | the loop reports exactly the listed headers that are present, in list order |
| WordPress.EndpointIssues | CyberHeaders/CyberHeaders/api/utils/wordpress.py:24-31 | one issue per flag set; the pingback, REST and admin-ajax issues each appear exactly when their flag is set, in that order (pingback first, admin-ajax last) |
| WordPress.HeaderFindings | CyberHeaders/CyberHeaders/api/utils/wordpress.py:18-31 | at most six header-derived issues: the exposed-header issues first, then the endpoint issues for the three tests of the source |
| WordPress.VersionFindings | CyberHeaders/CyberHeaders/api/utils/wordpress.py:40-45 | at most one version issue |
| WordPress.WordPressIssues | CyberHeaders/CyberHeaders/api/utils/wordpress.py:16-47 | at most seven issues, in the order header exposures, pingback, REST, admin-ajax, version: the exposures fill the first places, each endpoint issue sits at its index after them, and a leaked version is the last issue |
| WordPress.AppendExposed | CyberHeaders/CyberHeaders/api/utils/wordpress.py:20-22 | the loop computes `ExposedLoop` |
| WordPress.FindVersion | CyberHeaders/CyberHeaders/api/utils/wordpress.py:40-45 | the loop with its `break` returns the first matching pattern's version |
| WordPress.AppendEndpointIssues | CyberHeaders/CyberHeaders/api/utils/wordpress.py:24-31 | the three tests append in source order |
| WordPress.FindHeaderIssues | CyberHeaders/CyberHeaders/api/utils/wordpress.py:17-31 | the header half computes `HeaderFindings` |
| WordPress.AnalyzeWordPressHeaders | CyberHeaders/CyberHeaders/api/utils/wordpress.py:16-47 | the whole method computes `WordPressIssues`: exposures, pingback, REST, admin-ajax, version |
| WordPress.ExposedReported | CyberHeaders/CyberHeaders/api/utils/wordpress.py:18-22 | every listed WordPress header that is present is reported by name |
| WordPress.PingbackReportedTwice | CyberHeaders/CyberHeaders/api/utils/wordpress.py:20-25 | an `x-pingback` header yields exactly two issues, each once: its exposure and the XML-RPC issue |
| WordPress.PingbackRemoved | CyberHeaders/CyberHeaders/api/utils/wordpress.py:18-31 | without `x-pingback` neither of its issues appears and the header findings are two fewer (three when it was the only header naming admin-ajax.php) |
| WordPress.RestApiDetected | CyberHeaders/CyberHeaders/api/utils/wordpress.py:27-28 | a case-sensitive `wp-json` in `link` draws the REST issue and also makes detection (which lower-cases first) succeed |
| Tls.WeakCiphers | CyberHeaders/CyberHeaders/api/utils/ssl.py:69-70 | a name is kept exactly when it is a listed cipher whose lower-cased name contains a weak marker |
| Tls.WeakCiphersInOrder | CyberHeaders/CyberHeaders/api/utils/ssl.py:66-71 | the weak ciphers are an order-preserving subsequence of the shared ciphers |
| Tls.WeakMarkersReduce | CyberHeaders/CyberHeaders/api/utils/ssl.py:70 | `3des` is redundant: weak exactly when the name has `rc4`, `des` or `md5` |
| Tls.TripleDesIsWeak | CyberHeaders/CyberHeaders/api/utils/ssl.py:69-70 | `TLS_RSA_WITH_3DES_EDE_CBC_SHA` is weak |
| Tls.AesGcmIsNotWeak | CyberHeaders/CyberHeaders/api/utils/ssl.py:69-70 | `TLS_AES_128_GCM_SHA256` is not weak |
| Tls.PairsToMap | CyberHeaders/CyberHeaders/api/utils/ssl.py:45-46 | `dict(pairs)` has exactly the pairs' keys, and each key is bound to the value of its last pair |
| Tls.LastPairWins | CyberHeaders/CyberHeaders/api/utils/ssl.py:45-46 | adding one pair to the dict keeps every key bound to the value of its last pair |
| Tls.SslScan | CyberHeaders/CyberHeaders/api/utils/ssl.py:9-86 | the field-by-field filling computes the scan function over the handshake outcome |
| Tls.ScanOf | CyberHeaders/CyberHeaders/api/utils/ssl.py:9-86 | a scan without error has a certificate and a protocol table; weak ciphers are reported only with a supported list, and then they are exactly the weak-cipher filter of that list; a supported list is non-empty and comes only without error |
| Tls.ErrorPath | CyberHeaders/CyberHeaders/api/utils/ssl.py:19-84 | `error` is set exactly when the host is empty or the connection fails, and then every other field keeps its default |
| Tls.BlankTargetRejected | CyberHeaders/CyberHeaders/api/utils/ssl.py:21-25 | a blank input without a parsed host gives the invalid-host error over the defaults |
| Tls.LegacyProtocolsOff | CyberHeaders/CyberHeaders/api/utils/ssl.py:56-63 | SSLv2, SSLv3, TLS 1.0 and TLS 1.1 are always reported false |
| Tls.WeakAmongSupported | CyberHeaders/CyberHeaders/api/utils/ssl.py:65-71 | in every result the weak ciphers are an ordered selection of the supported ones, and empty when none were reported |
| Analysis.WithWordPress | CyberHeaders/CyberHeaders/api/utils/analysis.py:35-37 | `wordpress_issues` is present exactly when WordPress is detected, holds at most seven issues, and nothing else changes |
| Analysis.ScoreOf | CyberHeaders/CyberHeaders/api/utils/analysis.py:72-115 | the score lies in [0, 100]; it is 100 less every penalty whenever the penalties total less than 100, and 0 otherwise |
| Analysis.BreakdownOf | CyberHeaders/CyberHeaders/api/utils/analysis.py:74-117 | exactly the five categories, each in [0, its budget]; cookies stay 15 and cors 10; headers is max(0, 40 − 3·missing − 2·deprecated) |
| Analysis.CalculateSecurityScore | CyberHeaders/CyberHeaders/api/utils/analysis.py:72-119 | the step-by-step deductions and the clamp compute `ScoreOf` and `BreakdownOf` |
| Analysis.ClampAll | CyberHeaders/CyberHeaders/api/utils/analysis.py:116-117 | the closing loop raises every category to at least 0 and changes nothing else |
| Analysis.ScoreAntitone | CyberHeaders/CyberHeaders/api/utils/analysis.py:82-117 | more findings of every kind never raise the score or any category |
| Analysis.FailedScanCostsNothing | CyberHeaders/CyberHeaders/api/utils/analysis.py:99-106 | a failed TLS probe costs no TLS points and leaves the ssl category at 30 |
| Analysis.RiskLevel | CyberHeaders/CyberHeaders/api/utils/analysis.py:40 | High exactly below 40, Medium exactly from 40 to 69, Low exactly from 70 |
| Analysis.RiskAntitone | CyberHeaders/CyberHeaders/api/utils/analysis.py:40 | more findings never lower the risk tier |
| Analysis.HeaderRecommendations | CyberHeaders/CyberHeaders/api/utils/analysis.py:125-147 | one line per entry, section after section at running offsets: missing, deprecated, CSP, cookie, CORS, HSTS, then WordPress when present; each line is the section's prefix and the entry, in list order |
| Analysis.SslRecommendations | CyberHeaders/CyberHeaders/api/utils/analysis.py:149-157 | one line each for weak ciphers (naming them joined by `, `), compression and a scan error, when present, in that order and at those indices |
| Analysis.RecommendationsOf | CyberHeaders/CyberHeaders/api/utils/analysis.py:122-159 | the seven header sections in their fixed order at running offsets, then the weak-cipher, compression and error lines; the length is the sum of the section lengths plus the TLS lines, and the scan error is last when there is one |
| Analysis.AppendMessages | CyberHeaders/CyberHeaders/api/utils/analysis.py:126-147 | each loop appends one prefixed line per item, in order |
| Analysis.GenerateRecommendations | CyberHeaders/CyberHeaders/api/utils/analysis.py:122-159 | the sections are concatenated in fixed order |
| Analysis.AppendSslRecommendations | CyberHeaders/CyberHeaders/api/utils/analysis.py:149-157 | the three optional TLS lines are appended in order |
| Analysis.Select | CyberHeaders/CyberHeaders/api/utils/analysis.py:174-178 | a header is selected exactly when its membership in `missing_essential` matches |
| Analysis.SelectSplits | CyberHeaders/CyberHeaders/api/utils/analysis.py:174-178 | every checked header lands in exactly one of the two selections |
| Analysis.CheckLinesAreMessages | CyberHeaders/CyberHeaders/api/utils/analysis.py:174-178 | the loop's lines are one per selected header, in order |
| Analysis.ChecksPartition | CyberHeaders/CyberHeaders/api/utils/analysis.py:162-191 | exactly six lines across passed and failed |
| Analysis.SelectedReported | CyberHeaders/CyberHeaders/api/utils/analysis.py:174-178 | every checked header whose membership in `missing_essential` matches gets its line |
| Analysis.PassedOf | CyberHeaders/CyberHeaders/api/utils/analysis.py:162-191 | every checked header that is not missing is listed as present; the cipher and compression checks are listed when they pass |
| Analysis.FailedOf | CyberHeaders/CyberHeaders/api/utils/analysis.py:162-191 | every checked header that is missing is listed as missing; weak ciphers (named) and compression are listed when found |
| Analysis.FailedScanPassesTlsChecks | CyberHeaders/CyberHeaders/api/utils/analysis.py:181-189 | after a failed TLS probe both TLS checks pass and the failed list holds only missing headers |
| Analysis.CategorizeChecks | CyberHeaders/CyberHeaders/api/utils/analysis.py:162-191 | the loop and the two TLS checks compute the passed and failed lists |
| Analysis.AppendTlsChecks | CyberHeaders/CyberHeaders/api/utils/analysis.py:180-189 | each TLS check appends to exactly one of the two lists |
| RateLimit.PeriodSeconds | CyberHeaders/CyberHeaders/api/middleware/rate_limit.py:47-56 | second is 1 second, minute 60, hour 3600 and day 86400; any other name gives 60 |
| RateLimit.ParseRate | CyberHeaders/CyberHeaders/api/middleware/rate_limit.py:40-58 | a rate without `/` parses exactly when `int` accepts it, to (int(rate), 60) |
| RateLimit.SlashAfterDigits | CyberHeaders/CyberHeaders/api/middleware/rate_limit.py:44 | the first `/` of digits, `/`, text is the one after the digits |
| RateLimit.NoSlash | CyberHeaders/CyberHeaders/api/middleware/rate_limit.py:44 | a period name without `/` holds no separator |
| RateLimit.SplitAtSlash | CyberHeaders/CyberHeaders/api/middleware/rate_limit.py:44 | `"N/period".split('/')` is exactly `[N, period]` |
| RateLimit.RateDigitsRoundTrip | CyberHeaders/CyberHeaders/api/middleware/rate_limit.py:40-58 | digits, `/`, period parses to the digits' value and the period's seconds |
| RateLimit.RateRoundTrip | CyberHeaders/CyberHeaders/api/middleware/rate_limit.py:40-58 | `str(n) + "/" + period` parses back to `n` and the period's seconds |
| RateLimit.GetRateLimit | CyberHeaders/CyberHeaders/api/middleware/rate_limit.py:35-38 | a known key gets its configured limit, any other key the global rate |
| RateLimit.Step | CyberHeaders/CyberHeaders/api/middleware/rate_limit.py:12-33 | only a forwarded `/api/` request changes the store; a rejection is always 429 with the fixed detail, and a rejection or a raise keeps the store |
| RateLimit.OutsideApiPassesThrough | CyberHeaders/CyberHeaders/api/middleware/rate_limit.py:13-14 | a path outside `/api/` is forwarded and the store is unchanged |
| RateLimit.LimitDecision | CyberHeaders/CyberHeaders/api/middleware/rate_limit.py:22-33 | rejected with 429 exactly when the count (default 0) has reached the limit; a rejection keeps the store, an acceptance raises that one counter by one |
| RateLimit.StepOnlyCounts | CyberHeaders/CyberHeaders/api/middleware/rate_limit.py:23-32 | no counter decreases, and only `ratelimit:{api_key}:{path}` can change |
| RateLimit.CounterBounded | CyberHeaders/CyberHeaders/api/middleware/rate_limit.py:25-32 | a counter within the limit stays within it |
| RateLimit.RateLimitMiddleware.constructor | CyberHeaders/CyberHeaders/api/middleware/rate_limit.py:9-10 | the middleware starts with an empty store |
| RateLimit.RateLimitMiddleware.Call | CyberHeaders/CyberHeaders/api/middleware/rate_limit.py:12-33 | the outcome and the new store are one step of the rule from the old store |
| RateLimit.RateLimitMiddleware.Decide | CyberHeaders/CyberHeaders/api/middleware/rate_limit.py:25-32 | the counter update: refuse with 429 and keep the store once the count has reached the limit, otherwise store the count plus one |
| Report.ScoreColor | CyberHeaders/CyberHeaders/api/utils/pdf.py:109-116 | success exactly from 80, warning exactly from 50 to 79, danger exactly below 50 |
| Report.RiskBadgeColor | CyberHeaders/CyberHeaders/api/utils/pdf.py:489-497 | any level other than Low, Medium, High and Critical gets medium grey |
| Report.RiskIcon | CyberHeaders/CyberHeaders/api/utils/pdf.py:499-507 | any level other than the four known ones gets the white circle |
| Report.RiskLookupsKnowAnalysisLevels | CyberHeaders/CyberHeaders/api/utils/pdf.py:489-507 | every level the analysis computes gets a known badge and icon (never the default, never Critical); at both extremes the badge matches the score colour |
| Report.CategoryStatus | CyberHeaders/CyberHeaders/api/utils/pdf.py:564-573 | Good exactly from 70, Fair exactly from 40 to 69, Poor exactly below 40 |
| Report.BreakdownNeverGood | CyberHeaders/CyberHeaders/api/utils/pdf.py:564-573 | no breakdown category ever rates Good; only headers with nothing deducted rates Fair |
| Report.BudgetStatus | CyberHeaders/CyberHeaders/api/utils/pdf.py:564-573 | corrected rating: the same tiers taken as percentages of the category's budget |
| Report.BudgetStatusTiers | CyberHeaders/CyberHeaders/api/utils/pdf.py:564-573 | under the corrected rating a full budget is Good, zero is Poor, and fewer points never rate better |
| Report.BudgetStatusOfBreakdown | CyberHeaders/CyberHeaders/api/utils/pdf.py:564-573 | under the corrected rating cookies and cors always rate Good, and so do headers with nothing deducted |
| Report.RecommendationPriority | CyberHeaders/CyberHeaders/api/utils/pdf.py:1157-1166 | HIGH exactly for numbers 1 to 5, MEDIUM exactly for 6 to 10, LOW beyond |
| Report.Truncate | CyberHeaders/CyberHeaders/api/utils/pdf.py:633 | unchanged up to 70 characters; a longer finding becomes its first 70 characters followed by `...` |
| Report.TopFive | CyberHeaders/CyberHeaders/api/utils/pdf.py:625 | `recommendations[:5]`: the first min(5, n) items, in order |
| Report.PriorityFindings | CyberHeaders/CyberHeaders/api/utils/pdf.py:623-636 | the loop builds the rows of the first five recommendations |
| Report.PriorityRow | CyberHeaders/CyberHeaders/api/utils/pdf.py:631-636 | one row: severity by position, the finding truncated |
| Report.RowsShape | CyberHeaders/CyberHeaders/api/utils/pdf.py:625-636 | rows are numbered from 1; rows 1 to 3 are HIGH/Immediate, rows 4 and 5 are MEDIUM/Soon; each shows its truncated recommendation |
| Report.TablePriorityWithinSection | CyberHeaders/CyberHeaders/api/utils/pdf.py:631-636 | a HIGH row of the table is HIGH in the recommendations section too; rows 4 and 5 are MEDIUM there but HIGH in the section |
| Report.ReportGenerator.constructor | CyberHeaders/CyberHeaders/api/utils/pdf.py:103-107 | the counter starts at 0 with no TOC entries |
| Report.ReportGenerator.ResetCounters | CyberHeaders/CyberHeaders/api/utils/pdf.py:944-945 | each report resets the counter to 0 and empties the TOC entries |
| Report.ReportGenerator.NextSectionNumber | CyberHeaders/CyberHeaders/api/utils/pdf.py:472-475 | returns the previous counter plus one and stores it |
| Report.ReportGenerator.NumberSections | CyberHeaders/CyberHeaders/api/utils/pdf.py:968-969 | after the reset, the k-th section added is headed `k. title` |
| Report.FindPair | CyberHeaders/CyberHeaders/api/utils/pdf.py:849 | the first `**` at or after a position, with none before it |
| Report.PairAtOccurs | CyberHeaders/CyberHeaders/api/utils/pdf.py:847 | a pair of asterisks is exactly an occurrence of `**` |
| Report.FormatLine | CyberHeaders/CyberHeaders/api/utils/pdf.py:832-852 | a non-blank stripped line formats to a non-empty line |
| Report.BoldMarkup | CyberHeaders/CyberHeaders/api/utils/pdf.py:849 | the substitution keeps a non-empty line non-empty |
| Report.BoldMarkupPlain | CyberHeaders/CyberHeaders/api/utils/pdf.py:849 | a line without `**` is left unchanged |
| Report.FirstPairAfter | CyberHeaders/CyberHeaders/api/utils/pdf.py:849 | the non-greedy `.*?` closes at the nearest `**` |
| Report.BoldMarkupSpan | CyberHeaders/CyberHeaders/api/utils/pdf.py:849 | `a**b**c` becomes `a<b>b</b>` followed by the substitution on `c` |
| Report.BoldMarkupUnclosed | CyberHeaders/CyberHeaders/api/utils/pdf.py:849 | an opening `**` with no closing pair after it, as in `a**b`, leaves the line as written |
| Report.FormattedLinesShape | CyberHeaders/CyberHeaders/api/utils/pdf.py:823-853 | at most one non-empty formatted line per input line; none exactly when every line is blank |
| Report.FormattedSectionsNonEmpty | CyberHeaders/CyberHeaders/api/utils/pdf.py:854-855 | every joined section is non-empty |
| Report.FormattedSectionsEmpty | CyberHeaders/CyberHeaders/api/utils/pdf.py:822-855 | sections are all dropped exactly when every section is blank |
| Report.FormatAiEmpty | CyberHeaders/CyberHeaders/api/utils/pdf.py:813-857 | the result is empty exactly when every line of every section is blank |
| Report.FormatAi | CyberHeaders/CyberHeaders/api/utils/pdf.py:813-857 | the formatted text is empty exactly when no section survives the formatting |
| Report.FormatAiAnalysis | CyberHeaders/CyberHeaders/api/utils/pdf.py:813-857 | the nested loops compute the formatted text: blank lines dropped, empty sections omitted, joined with `<br/>` and `<br/><br/>` |
| Report.FormatLines | CyberHeaders/CyberHeaders/api/utils/pdf.py:823-853 | the inner loop strips, skips blank lines and formats the rest |

## Left out

- Network and other I/O. Fetching headers and body, the socket and TLS handshake, and DNS resolution (`utils/dns.py`) are not modelled. What the handshake reports, including the certificate fields, the day count to expiry and the OCSP flag, is a `Tls.Handshake` input. URL parsing is an input too (`parsedHost`).
- The clock and `strptime`. The expiry day count or the parse error reaches `Tls.CertificateOf` as a `Result<int>`.
- Tls.SslScan: every failure is taken to happen before the first field is written. A failure raised part-way through filling the record would keep the fields written before it; this model does not capture that.
- The `analyze_website` orchestration in `utils/analysis.py` (async sequencing, timestamp, exception wrapping) is not modelled; only its WordPress step and its risk expression are. `utils/gemini.py` is not part of this model.
- The cache TTL. The counter store is a plain map without expiry, so a period never resets a counter.
- RateLimit: when `int` rejects the rate, or the rate has more than one `/`, Python raises. This is modelled as the `Raised` outcome, which leaves the store unchanged.
- RateLimit: a literal instance such as `10/minute` is covered by `RateLimit.RateRoundTrip` for any count and period name; it is not stated for that literal string separately.
- Headers.OnlyDefaultSrc and Headers.BareCookie: the literal inputs `default-src 'self'` and `session=abc; Path=/` are covered through their character-level conditions (`Headers.TokensAbsent` and the three absent words). They are not evaluated as literal strings.
- Headers.HstsVerdict: the literal values `max-age=100` and `max-age=31536000; includeSubDomains` are covered by the general `max-age=<n>` form; they are not evaluated as literal strings.
- Case and character classes. `lower()`, `re.IGNORECASE`, `\d`, `\s` and `strip()` are modelled on ASCII letters and digits. Whitespace is Python's `isspace` set. Unicode case mappings beyond ASCII are not modelled.
- The regular-expression engine itself. The WordPress version patterns and the `**bold**` substitution are modelled as the search functions they amount to. The ungrouped pattern `wordpress [0-9.]+` reports the text as the page wrote it.
- Request and response headers are maps keyed by the lower-cased header name, so the case-insensitive lookups of Django and `requests` become one exact lookup of that name (`RateLimit.ApiKeyOf`, `Headers.Has`).
- Header names are an enumeration of the names the rules look up; issue messages show the lower-case name, as in the source.
- Certificate issuer and subject keep only the first attribute of each relative distinguished name, which is what `dict(x[0] for x in ...)` reads.
- PDF layout. ReportLab styles, tables, drawing, gauge and bar sizes and `_format_timestamp` are not modelled. Colours and icons are named values, not RGB floats or glyphs; the section header colour is the fixed string the float arithmetic gives.
- The bullet marker is kept exactly as the source text spells it: three characters, a UTF-8 bullet decoded as Windows-1252. `line[1:]` removes only its first character, as written.
- `toc_entries` is reset but never appended to in the modelled code, so it stays empty.

## Findings

| source | as written | input that shows it | evidently intended | confidence | as-written member | corrected member |
|---|---|---|---|---|---|---|
| CyberHeaders/CyberHeaders/api/utils/pdf.py:564-573 | the breakdown table rates each category with the 70/40 tiers of a 100-point score, but no category's budget exceeds 40 | any scan, e.g. no findings at all: cookies 15 of 15, rated Poor; headers 40 of 40, rated Fair | rate each category against its own budget, so a category with nothing deducted is Good | medium, not executed | Report.BreakdownNeverGood | Report.BudgetStatusOfBreakdown |
