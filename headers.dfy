/**
 * The header rule engine of `utils/headers.py`: which essential security
 * headers are missing, which deprecated ones are present, and the substring
 * heuristics over Content-Security-Policy, Set-Cookie,
 * Access-Control-Allow-Origin and Strict-Transport-Security.  The checks are
 * substring tests on the header text, not parsers of the header grammars.
 */
module Headers {
  import opened Wrappers
  import opened Text

  /** Lower-cased header name to value, as one HTTP response carried them. */
  type HeaderSet = map<string, string>

  /** The header names the analysers look up. */
  datatype HeaderName =
    | ContentSecurityPolicy | XContentTypeOptions | XFrameOptions | StrictTransportSecurity
    | XXssProtection | ReferrerPolicy | PermissionsPolicy | CrossOriginOpenerPolicy
    | CrossOriginEmbedderPolicy | CrossOriginResourcePolicy
    | PublicKeyPins | XAspnetVersion | XPoweredBy | Server | XWebkitCsp | XContentSecurityPolicy
    | SetCookie | AccessControlAllowOrigin
    | ClearSiteData | ReportTo | FeaturePolicy | ExpectCt
    | XWpCron | XRedirectBy | XPingback | Link
  {
    /** The lower-case name that keys the header in a `HeaderSet`. */
    function Name(): string
    {
      match this
      case ContentSecurityPolicy => "content-security-policy"
      case XContentTypeOptions => "x-content-type-options"
      case XFrameOptions => "x-frame-options"
      case StrictTransportSecurity => "strict-transport-security"
      case XXssProtection => "x-xss-protection"
      case ReferrerPolicy => "referrer-policy"
      case PermissionsPolicy => "permissions-policy"
      case CrossOriginOpenerPolicy => "cross-origin-opener-policy"
      case CrossOriginEmbedderPolicy => "cross-origin-embedder-policy"
      case CrossOriginResourcePolicy => "cross-origin-resource-policy"
      case PublicKeyPins => "public-key-pins"
      case XAspnetVersion => "x-aspnet-version"
      case XPoweredBy => "x-powered-by"
      case Server => "server"
      case XWebkitCsp => "x-webkit-csp"
      case XContentSecurityPolicy => "x-content-security-policy"
      case SetCookie => "set-cookie"
      case AccessControlAllowOrigin => "access-control-allow-origin"
      case ClearSiteData => "clear-site-data"
      case ReportTo => "report-to"
      case FeaturePolicy => "feature-policy"
      case ExpectCt => "expect-ct"
      case XWpCron => "x-wp-cron"
      case XRedirectBy => "x-redirect-by"
      case XPingback => "x-pingback"
      case Link => "link"
    }
  }

  predicate Has(headers: HeaderSet, h: HeaderName)
  {
    h.Name() in headers
  }

  /** `headers.get(name, "")`. */
  function GetOrEmpty(headers: HeaderSet, h: HeaderName): string
  {
    if Has(headers, h) then headers[h.Name()] else ""
  }

  const EssentialHeaders: seq<HeaderName> := [
    ContentSecurityPolicy, XContentTypeOptions, XFrameOptions, StrictTransportSecurity,
    XXssProtection, ReferrerPolicy, PermissionsPolicy, CrossOriginOpenerPolicy,
    CrossOriginEmbedderPolicy, CrossOriginResourcePolicy
  ]

  const DeprecatedHeaders: seq<HeaderName> := [
    PublicKeyPins, XAspnetVersion, XPoweredBy, Server, XWebkitCsp, XContentSecurityPolicy
  ]

  // ---------------------------------------------------------------------
  // Essential and deprecated headers
  // ---------------------------------------------------------------------

  /** `h.Name()`, as a function value. */
  function NameOf(h: HeaderName): string
  {
    h.Name()
  }

  /** The items of `items` whose key is a key of `headers` (`present`) or is
      not (`!present`), in list order. */
  function KeysWhere<T(==,!new)>(items: seq<T>, key: T -> string, headers: HeaderSet, present: bool): (r: seq<T>)
    ensures forall x :: x in r <==> x in items && (key(x) in headers) == present
    ensures |r| <= |items|
    decreases |items|
  {
    if items == [] then []
    else
      var init := KeysWhere(items[..|items| - 1], key, headers, present);
      var last := items[|items| - 1];
      assert items == items[..|items| - 1] + [last];
      if (key(last) in headers) == present then init + [last] else init
  }

  /** The filter keeps the order of the list it filters. */
  lemma {:induction false} KeysWhereInOrder<T(!new)>(items: seq<T>, key: T -> string, headers: HeaderSet, present: bool)
    ensures Subsequence(KeysWhere(items, key, headers, present), items)
    decreases |items|
  {
    if items != [] {
      var init, last := items[..|items| - 1], items[|items| - 1];
      KeysWhereInOrder(init, key, headers, present);
      assert items == init + [last];
      SubsequenceSnoc(KeysWhere(init, key, headers, present), init, last);
    }
  }

  /** When every item passes the test, the filter returns the whole list. */
  lemma {:induction false} KeysWhereAll<T(!new)>(items: seq<T>, key: T -> string, headers: HeaderSet, present: bool)
    requires forall x :: x in items ==> (key(x) in headers) == present
    ensures KeysWhere(items, key, headers, present) == items
    decreases |items|
  {
    if items != [] {
      assert items == items[..|items| - 1] + [items[|items| - 1]];
      KeysWhereAll(items[..|items| - 1], key, headers, present);
    }
  }

  /** `missing_essential`: the essential headers that the response lacks, in
      list order; all ten when the response carries none of them. */
  function MissingEssential(headers: HeaderSet): (r: seq<HeaderName>)
    ensures forall h :: h in r <==> h in EssentialHeaders && !Has(headers, h)
    ensures (forall h :: h in EssentialHeaders ==> !Has(headers, h)) ==> r == EssentialHeaders
  {
    if forall h :: h in EssentialHeaders ==> !Has(headers, h) then
      KeysWhereAll(EssentialHeaders, NameOf, headers, false);
      KeysWhere(EssentialHeaders, NameOf, headers, false)
    else
      KeysWhere(EssentialHeaders, NameOf, headers, false)
  }

  /** `deprecated`: the deprecated headers that the response carries, in list
      order; never one that is also reported missing. */
  function Deprecated(headers: HeaderSet): (r: seq<HeaderName>)
    ensures forall h :: h in r <==> h in DeprecatedHeaders && Has(headers, h)
    ensures forall h :: h in r ==> h !in MissingEssential(headers)
  {
    KeysWhere(DeprecatedHeaders, NameOf, headers, true)
  }

  // ---------------------------------------------------------------------
  // Content-Security-Policy
  // ---------------------------------------------------------------------

  /** The keywords, directive names and sources the CSP rules search for. */
  datatype CspToken =
    | UnsafeInline | UnsafeEval | UnsafeHashes
    | DefaultSrc | ScriptSrc | ObjectSrc | BaseUri
    | AnySource | QuotedUnsafeInline | DataScheme | HttpScheme | FtpScheme

  function TokenText(t: CspToken): string
  {
    match t
    case UnsafeInline => "unsafe-inline"
    case UnsafeEval => "unsafe-eval"
    case UnsafeHashes => "unsafe-hashes"
    case DefaultSrc => "default-src"
    case ScriptSrc => "script-src"
    case ObjectSrc => "object-src"
    case BaseUri => "base-uri"
    case AnySource => "*"
    case QuotedUnsafeInline => "'unsafe-inline'"
    case DataScheme => "data:"
    case HttpScheme => "http:"
    case FtpScheme => "ftp:"
  }

  const UnsafeDirectives: seq<CspToken> := [UnsafeInline, UnsafeEval, UnsafeHashes]
  const ImportantDirectives: seq<CspToken> := [DefaultSrc, ScriptSrc, ObjectSrc, BaseUri]
  const PermissiveSources: seq<CspToken> := [AnySource, QuotedUnsafeInline, DataScheme, HttpScheme, FtpScheme]

  const UnsafeDirectiveMsg := "CSP contains unsafe directive: "
  const MissingDirectiveMsg := "CSP missing important directive: "
  const PermissiveSourceMsg := "CSP contains overly permissive source: "

  /** The items of `items` whose text occurs in `s` (`present`) or does not
      (`!present`), in list order. */
  function Where<T(==,!new)>(items: seq<T>, text: T -> string, s: string, present: bool): (r: seq<T>)
    ensures forall x :: x in r <==> x in items && Contains(s, text(x)) == present
    ensures |r| <= |items|
    decreases |items|
  {
    if items == [] then []
    else
      var init := Where(items[..|items| - 1], text, s, present);
      var last := items[|items| - 1];
      assert items == items[..|items| - 1] + [last];
      if Contains(s, text(last)) == present then init + [last] else init
  }

  /** The filter keeps the order of the list it filters. */
  lemma {:induction false} WhereInOrder<T(!new)>(items: seq<T>, text: T -> string, s: string, present: bool)
    ensures Subsequence(Where(items, text, s, present), items)
    decreases |items|
  {
    if items != [] {
      var init, last := items[..|items| - 1], items[|items| - 1];
      WhereInOrder(init, text, s, present);
      assert items == init + [last];
      SubsequenceSnoc(Where(init, text, s, present), init, last);
    }
  }

  /** When no item passes the test, the filter returns nothing. */
  lemma {:induction false} WhereNone<T(!new)>(items: seq<T>, text: T -> string, s: string, present: bool)
    requires forall x :: x in items ==> Contains(s, text(x)) != present
    ensures Where(items, text, s, present) == []
    decreases |items|
  {
    if items != [] {
      assert items == items[..|items| - 1] + [items[|items| - 1]];
      WhereNone(items[..|items| - 1], text, s, present);
    }
  }

  /** When every item passes the test, the filter returns the whole list. */
  lemma {:induction false} WhereAll<T(!new)>(items: seq<T>, text: T -> string, s: string, present: bool)
    requires forall x :: x in items ==> Contains(s, text(x)) == present
    ensures Where(items, text, s, present) == items
    decreases |items|
  {
    if items != [] {
      assert items == items[..|items| - 1] + [items[|items| - 1]];
      WhereAll(items[..|items| - 1], text, s, present);
    }
  }

  /** One message per item, `prefix` followed by the item's text. */
  function Messages<T>(prefix: string, items: seq<T>, text: T -> string): (r: seq<string>)
    ensures |r| == |items|
    ensures forall k :: 0 <= k < |items| ==> r[k] == prefix + text(items[k])
    decreases |items|
  {
    if items == [] then []
    else Messages(prefix, items[..|items| - 1], text) + [prefix + text(items[|items| - 1])]
  }

  /** What one loop of `analyze_csp` appends, item by item. */
  function LoopIssues<T>(prefix: string, items: seq<T>, text: T -> string, s: string, present: bool): seq<string>
    decreases |items|
  {
    if items == [] then []
    else
      var init := LoopIssues(prefix, items[..|items| - 1], text, s, present);
      var last := items[|items| - 1];
      if Contains(s, text(last)) == present then init + [prefix + text(last)] else init
  }

  /** The loop reports one message per item of the filtered list. */
  lemma {:induction false} LoopIssuesAreMessages<T(!new)>(prefix: string, items: seq<T>, text: T -> string, s: string, present: bool)
    ensures LoopIssues(prefix, items, text, s, present) == Messages(prefix, Where(items, text, s, present), text)
    decreases |items|
  {
    if items != [] {
      var init, last := items[..|items| - 1], items[|items| - 1];
      LoopIssuesAreMessages(prefix, init, text, s, present);
      assert items == init + [last];
      var w := Where(init, text, s, present);
      assert (w + [last])[..|w|] == w;
    }
  }

  /** The unsafe keywords that occur anywhere in the policy. */
  function UnsafeFound(csp: string): seq<CspToken>
  {
    Where(UnsafeDirectives, TokenText, csp, true)
  }

  /** The important directive names that occur nowhere in the policy. */
  function DirectivesMissing(csp: string): seq<CspToken>
  {
    Where(ImportantDirectives, TokenText, csp, false)
  }

  /** The permissive source tokens that occur anywhere in the policy. */
  function PermissiveFound(csp: string): seq<CspToken>
  {
    Where(PermissiveSources, TokenText, csp, true)
  }

  /** `analyze_csp`: the three blocks in order, at most 3 + 4 + 5 issues. */
  function CspIssues(csp: string): (r: seq<string>)
    ensures |r| <= 12
  {
    Messages(UnsafeDirectiveMsg, UnsafeFound(csp), TokenText)
    + Messages(MissingDirectiveMsg, DirectivesMissing(csp), TokenText)
    + Messages(PermissiveSourceMsg, PermissiveFound(csp), TokenText)
  }

  /** One of the three loops of `analyze_csp`: appends a message for every
      item whose presence in the policy is `present`. */
  method AppendIssues<T>(issues: seq<string>, prefix: string, items: seq<T>, text: T -> string, csp: string, present: bool)
    returns (out: seq<string>)
    ensures out == issues + LoopIssues(prefix, items, text, csp, present)
  {
    out := issues;
    var i := 0;
    while i < |items|
      invariant 0 <= i <= |items|
      invariant out == issues + LoopIssues(prefix, items[..i], text, csp, present)
    {
      var item := items[i];
      assert items[..i + 1][..i] == items[..i];
      if Contains(csp, text(item)) == present {
        out := out + [prefix + text(item)];
      }
      i := i + 1;
    }
    assert items[..i] == items;
  }

  method AnalyzeCsp(csp: string) returns (issues: seq<string>)
    ensures issues == CspIssues(csp)
  {
    ghost var unsafe := Messages(UnsafeDirectiveMsg, UnsafeFound(csp), TokenText);
    ghost var missing := Messages(MissingDirectiveMsg, DirectivesMissing(csp), TokenText);
    ghost var permissive := Messages(PermissiveSourceMsg, PermissiveFound(csp), TokenText);
    issues := AppendIssues([], UnsafeDirectiveMsg, UnsafeDirectives, TokenText, csp, true);
    assert issues == unsafe by {
      LoopIssuesAreMessages(UnsafeDirectiveMsg, UnsafeDirectives, TokenText, csp, true);
    }
    issues := AppendIssues(issues, MissingDirectiveMsg, ImportantDirectives, TokenText, csp, false);
    assert issues == unsafe + missing by {
      LoopIssuesAreMessages(MissingDirectiveMsg, ImportantDirectives, TokenText, csp, false);
    }
    issues := AppendIssues(issues, PermissiveSourceMsg, PermissiveSources, TokenText, csp, true);
    assert issues == unsafe + missing + permissive by {
      LoopIssuesAreMessages(PermissiveSourceMsg, PermissiveSources, TokenText, csp, true);
    }
  }

  /** The source `'unsafe-inline'` contains the keyword `unsafe-inline`. */
  lemma QuotedContainsKeyword(csp: string)
    requires Contains(csp, TokenText(QuotedUnsafeInline))
    ensures Contains(csp, TokenText(UnsafeInline))
  {
    var q, k := TokenText(QuotedUnsafeInline), TokenText(UnsafeInline);
    assert q[1..14] == k;
    assert OccursAt(q, k, 1);
    ContainsTrans(csp, q, k);
  }

  /** The permissive-source issue for `'unsafe-inline'` never comes without
      the unsafe-keyword issue. */
  lemma QuotedUnsafeInlineImpliesKeyword(csp: string)
    requires QuotedUnsafeInline in PermissiveFound(csp)
    ensures UnsafeInline in UnsafeFound(csp)
  {
    QuotedContainsKeyword(csp);
  }

  /** Text added around a policy never removes an unsafe keyword or a
      permissive source that it held, nor brings back a directive it had. */
  lemma CspMonotone(csp: string, bigger: string)
    requires Contains(bigger, csp)
    ensures forall t :: t in UnsafeFound(csp) ==> t in UnsafeFound(bigger)
    ensures forall t :: t in PermissiveFound(csp) ==> t in PermissiveFound(bigger)
    ensures forall t :: t in DirectivesMissing(bigger) ==> t in DirectivesMissing(csp)
  {
    forall t: CspToken | Contains(csp, TokenText(t)) ensures Contains(bigger, TokenText(t)) {
      ContainsTrans(bigger, csp, TokenText(t));
    }
  }

  /** An empty policy draws exactly the four missing-directive issues. */
  lemma EmptyPolicy(csp: string)
    requires csp == []
    ensures CspIssues(csp) == Messages(MissingDirectiveMsg, ImportantDirectives, TokenText)
  {
    forall t: CspToken ensures !Contains(csp, TokenText(t)) {
      assert |TokenText(t)| > 0;
    }
    WhereNone(UnsafeDirectives, TokenText, csp, true);
    WhereNone(PermissiveSources, TokenText, csp, true);
    WhereAll(ImportantDirectives, TokenText, csp, false);
  }

  /** A policy without the letters `n`, `i`, `b` and `h`, the asterisk and
      the colon holds none of the rule's tokens but `default-src`. */
  lemma TokensAbsent(csp: string)
    requires 'n' !in csp && 'i' !in csp && 'b' !in csp && 'h' !in csp && '*' !in csp && ':' !in csp
    ensures forall t :: t != DefaultSrc ==> !Contains(csp, TokenText(t))
  {
    forall t: CspToken | t != DefaultSrc ensures !Contains(csp, TokenText(t)) {
      match t
      case UnsafeInline => LacksChar(csp, TokenText(t), 1);
      case UnsafeEval => LacksChar(csp, TokenText(t), 1);
      case UnsafeHashes => LacksChar(csp, TokenText(t), 1);
      case ScriptSrc => LacksChar(csp, TokenText(t), 3);
      case ObjectSrc => LacksChar(csp, TokenText(t), 1);
      case BaseUri => LacksChar(csp, TokenText(t), 0);
      case AnySource => LacksChar(csp, TokenText(t), 0);
      case QuotedUnsafeInline => LacksChar(csp, TokenText(t), 2);
      case DataScheme => LacksChar(csp, TokenText(t), 4);
      case HttpScheme => LacksChar(csp, TokenText(t), 0);
      case FtpScheme => LacksChar(csp, TokenText(t), 3);
    }
  }

  /** A policy that names `default-src` but none of the other three
      important directives misses exactly those three, in list order. */
  lemma ThreeDirectivesMissing(csp: string)
    requires Contains(csp, TokenText(DefaultSrc))
    requires !Contains(csp, TokenText(ScriptSrc)) && !Contains(csp, TokenText(ObjectSrc))
    requires !Contains(csp, TokenText(BaseUri))
    ensures DirectivesMissing(csp) == [ScriptSrc, ObjectSrc, BaseUri]
  {
    var I := ImportantDirectives;
    assert I[..1][..0] == [] && I[..2][..1] == I[..1] && I[..3][..2] == I[..2] && I[..3] == I[..|I| - 1];
    assert Where(I[..1], TokenText, csp, false) == [];
    assert Where(I[..2], TokenText, csp, false) == [ScriptSrc];
    assert Where(I[..3], TokenText, csp, false) == [ScriptSrc, ObjectSrc];
  }

  /** A policy that names `default-src` and no other token of the rules, such
      as `default-src 'self'`, draws exactly the missing-directive issues for
      `script-src`, `object-src` and `base-uri`. */
  lemma OnlyDefaultSrc(csp: string)
    requires Contains(csp, TokenText(DefaultSrc))
    requires forall t :: t != DefaultSrc ==> !Contains(csp, TokenText(t))
    ensures CspIssues(csp) == Messages(MissingDirectiveMsg, [ScriptSrc, ObjectSrc, BaseUri], TokenText)
  {
    assert UnsafeFound(csp) == [] by {
      WhereNone(UnsafeDirectives, TokenText, csp, true);
    }
    assert PermissiveFound(csp) == [] by {
      WhereNone(PermissiveSources, TokenText, csp, true);
    }
    assert DirectivesMissing(csp) == [ScriptSrc, ObjectSrc, BaseUri] by {
      ThreeDirectivesMissing(csp);
    }
  }

  // ---------------------------------------------------------------------
  // Set-Cookie
  // ---------------------------------------------------------------------

  const MissingSecure := "Missing Secure flag"
  const MissingHttpOnly := "Missing HttpOnly flag"
  const MissingSameSite := "Missing SameSite attribute"
  const SameSiteNoneInsecure := "SameSite=None without Secure flag"
  const BroadDomain := "Overly broad domain setting"

  /** `[c.strip() for c in cookie_header.split(";")]`. */
  function CookieAttributes(header: string): (attrs: seq<string>)
    ensures |attrs| >= 1
  {
    var parts := Split(header, ";");
    seq(|parts|, i requires 0 <= i < |parts| => Strip(parts[i]))
  }

  /** `any(pat in c.lower() for c in attrs)`. */
  predicate AnyAttributeHas(attrs: seq<string>, pat: string)
  {
    exists i :: 0 <= i < |attrs| && Contains(Lower(attrs[i]), pat)
  }

  /** `next((c for c in attrs if pat in c.lower()), None)`. */
  function FirstAttributeWith(attrs: seq<string>, pat: string): (r: Option<string>)
    ensures r.None? <==> !AnyAttributeHas(attrs, pat)
    ensures r.Some? ==> exists k :: 0 <= k < |attrs| && attrs[k] == r.value && Contains(Lower(r.value), pat)
                                    && forall j :: 0 <= j < k ==> !Contains(Lower(attrs[j]), pat)
    decreases |attrs|
  {
    if attrs == [] then None
    else if Contains(Lower(attrs[0]), pat) then Some(attrs[0])
    else
      var r := FirstAttributeWith(attrs[1..], pat);
      assert forall i :: 1 <= i < |attrs| ==> attrs[i] == attrs[1..][i - 1];
      if r.Some? then
        var k :| 0 <= k < |attrs[1..]| && attrs[1..][k] == r.value
                 && forall j :: 0 <= j < k ==> !Contains(Lower(attrs[1..][j]), pat);
        assert attrs[k + 1] == r.value;
        r
      else r
  }

  /** The issue list from the four attribute tests, in the order the source
      appends them; the two SameSite issues exclude each other and the second
      always comes with the missing-Secure issue. */
  function CookieIssuesOf(secure: bool, httpOnly: bool, sameSite: Option<string>, domain: bool): (r: seq<string>)
    ensures |r| <= 4
    ensures !(MissingSameSite in r && SameSiteNoneInsecure in r)
    ensures SameSiteNoneInsecure in r ==> MissingSecure in r
  {
    assert |MissingSecure| == 19 && |MissingHttpOnly| == 21 && |MissingSameSite| == 26
      && |SameSiteNoneInsecure| == 33 && |BroadDomain| == 27;
    var sameSiteNone := sameSite.Some? && Contains(Lower(sameSite.value), "samesite=none");
    (if !secure then [MissingSecure] else [])
    + (if !httpOnly then [MissingHttpOnly] else [])
    + (if sameSite.None? then [MissingSameSite] else if sameSiteNone && !secure then [SameSiteNoneInsecure] else [])
    + (if domain then [BroadDomain] else [])
  }

  /** `analyze_cookies`: the SameSite test looks only at the first attribute
      that mentions `samesite`. */
  function CookieIssues(header: string): (r: seq<string>)
    ensures |r| <= 4
    ensures !(MissingSameSite in r && SameSiteNoneInsecure in r)
    ensures SameSiteNoneInsecure in r ==> MissingSecure in r
  {
    var attrs := CookieAttributes(header);
    CookieIssuesOf(
      AnyAttributeHas(attrs, "secure"),
      AnyAttributeHas(attrs, "httponly"),
      FirstAttributeWith(attrs, "samesite"),
      AnyAttributeHas(attrs, "domain="))
  }

  /** The appending half of `analyze_cookies`, once the attribute tests are done. */
  method AppendCookieIssues(secure: bool, httpOnly: bool, sameSite: Option<string>, domain: bool)
    returns (issues: seq<string>)
    ensures issues == CookieIssuesOf(secure, httpOnly, sameSite, domain)
  {
    issues := [];
    if !secure {
      issues := issues + [MissingSecure];
    }
    if !httpOnly {
      issues := issues + [MissingHttpOnly];
    }
    if sameSite.None? {
      issues := issues + [MissingSameSite];
    } else if Contains(Lower(sameSite.value), "samesite=none") && !secure {
      issues := issues + [SameSiteNoneInsecure];
    }
    if domain {
      issues := issues + [BroadDomain];
    }
  }

  method AnalyzeCookies(header: string) returns (issues: seq<string>)
    ensures issues == CookieIssues(header)
  {
    var cookies := CookieAttributes(header);
    var secure := AnyAttributeHas(cookies, "secure");
    var httpOnly := AnyAttributeHas(cookies, "httponly");
    var samesite := FirstAttributeWith(cookies, "samesite");
    var domain := AnyAttributeHas(cookies, "domain=");
    issues := AppendCookieIssues(secure, httpOnly, samesite, domain);
  }

  /** Every attribute is a piece of the header, so a pattern absent from the
      lower-cased header is absent from every attribute. */
  lemma NoAttributeHas(header: string, pat: string)
    requires !Contains(Lower(header), pat)
    ensures !AnyAttributeHas(CookieAttributes(header), pat)
  {
    var parts := Split(header, ";");
    var attrs := CookieAttributes(header);
    forall i | 0 <= i < |attrs| ensures !Contains(Lower(attrs[i]), pat) {
      SplitParts(header, ";", i);
      ContainsTrans(header, parts[i], attrs[i]);
      LowerContains(header, attrs[i]);
      if Contains(Lower(attrs[i]), pat) {
        ContainsTrans(Lower(header), Lower(attrs[i]), pat);
      }
    }
  }

  /** A cookie that never mentions `secure`, `httponly` or `samesite`, in any
      letter case, is reported for all three before anything else. */
  lemma BareCookie(header: string)
    requires !Contains(Lower(header), "secure")
    requires !Contains(Lower(header), "httponly")
    requires !Contains(Lower(header), "samesite")
    ensures CookieIssues(header) == [MissingSecure, MissingHttpOnly, MissingSameSite]
      || CookieIssues(header) == [MissingSecure, MissingHttpOnly, MissingSameSite, BroadDomain]
    ensures !Contains(Lower(header), "domain=") ==>
      CookieIssues(header) == [MissingSecure, MissingHttpOnly, MissingSameSite]
  {
    NoAttributeHas(header, "secure");
    NoAttributeHas(header, "httponly");
    NoAttributeHas(header, "samesite");
    if !Contains(Lower(header), "domain=") {
      NoAttributeHas(header, "domain=");
    }
  }

  // ---------------------------------------------------------------------
  // Access-Control-Allow-Origin
  // ---------------------------------------------------------------------

  const WildcardOrigin := "Overly permissive CORS policy: Access-Control-Allow-Origin: *"

  /** `analyze_cors`: one issue exactly when the value is the bare wildcard. */
  function CorsIssues(acao: string): (r: seq<string>)
    ensures |r| <= 1
    ensures r != [] <==> acao == "*"
  {
    if acao == "*" then [WildcardOrigin] else []
  }

  method AnalyzeCors(acao: string) returns (issues: seq<string>)
    ensures issues == CorsIssues(acao)
  {
    issues := [];
    if acao == "*" {
      issues := issues + [WildcardOrigin];
    }
  }

  // ---------------------------------------------------------------------
  // Strict-Transport-Security
  // ---------------------------------------------------------------------

  /** One year, in seconds. */
  const MinMaxAge: nat := 31536000

  const HstsMissingMaxAge := "HSTS missing max-age directive"
  const HstsMissingSubdomains := "HSTS missing includeSubDomains directive"

  function HstsShortMaxAge(age: nat): string
  {
    "HSTS max-age too short: " + NatToString(age) + " (should be at least 31536000)"
  }

  /** `max-age=` at index `i`, followed by at least one digit. */
  predicate MaxAgeAt(h: string, i: nat)
  {
    OccursAt(h, "max-age=", i) && i + 8 < |h| && IsDigit(h[i + 8])
  }

  /** Where `re.search(r"max-age=(\d+)", h)` matches: the first `max-age=`
      at or after `from` that a digit follows. */
  function MaxAgeMatch(h: string, from: nat): (r: Option<nat>)
    ensures r.Some? ==> from <= r.value && MaxAgeAt(h, r.value)
    ensures forall i: nat :: from <= i && (r.None? || i < r.value) ==> !MaxAgeAt(h, i)
    decreases |h| - from
  {
    if from + 8 >= |h| then None
    else if MaxAgeAt(h, from) then Some(from)
    else MaxAgeMatch(h, from + 1)
  }

  /** `int(match.group(1))`: the value of the whole digit run after the first match. */
  function MaxAgeValue(h: string): Option<nat>
  {
    match MaxAgeMatch(h, 0)
    case None => None
    case Some(i) => Some(DecimalValue(h[i + 8..DigitRunEnd(h, i + 8)]))
  }

  /** The `max-age` part: missing directive (a case-sensitive test), or too short. */
  function HstsMaxAgeIssues(h: string): (r: seq<string>)
    ensures |r| <= 1
    ensures r == [HstsMissingMaxAge] <==> !Contains(h, "max-age")
  {
    if !Contains(h, "max-age") then [HstsMissingMaxAge]
    else match MaxAgeValue(h)
      case None => []
      case Some(age) => if age < MinMaxAge then [HstsShortMaxAge(age)] else []
  }

  /** The `includeSubDomains` part: checked against the lower-cased value. */
  function HstsSubdomainIssues(h: string): (r: seq<string>)
    ensures r == [] <==> Contains(Lower(h), "includesubdomains")
  {
    if !Contains(Lower(h), "includesubdomains") then [HstsMissingSubdomains] else []
  }

  /** `analyze_hsts`. */
  function HstsIssues(h: string): (r: seq<string>)
    ensures |r| <= 2
  {
    HstsMaxAgeIssues(h) + HstsSubdomainIssues(h)
  }

  method AnalyzeHsts(h: string) returns (issues: seq<string>)
    ensures issues == HstsIssues(h)
  {
    issues := [];
    if !Contains(h, "max-age") {
      issues := issues + [HstsMissingMaxAge];
    } else {
      var found := MaxAgeMatch(h, 0);
      if found.Some? {
        var start := found.value + 8;
        var maxAge := DecimalValue(h[start..DigitRunEnd(h, start)]);
        if maxAge < MinMaxAge {
          issues := issues + [HstsShortMaxAge(maxAge)];
        }
      }
    }
    if !Contains(Lower(h), "includesubdomains") {
      issues := issues + [HstsMissingSubdomains];
    }
  }

  /** A `max-age` that no digit follows raises no too-short issue. */
  lemma MaxAgeWithoutDigits(h: string)
    requires forall i: nat :: !MaxAgeAt(h, i)
    ensures HstsMaxAgeIssues(h) == if Contains(h, "max-age") then [] else [HstsMissingMaxAge]
  {
  }

  /** The regular expression reads back the number a policy was written with:
      `max-age=<n>` followed by anything but a digit. */
  lemma MaxAgeRoundTrip(n: nat, rest: string)
    requires rest == [] || !IsDigit(rest[0])
    ensures MaxAgeValue("max-age=" + NatToString(n) + rest) == Some(n)
  {
    var ds := NatToString(n);
    var h := "max-age=" + ds + rest;
    assert h[..8] == "max-age=";
    assert OccursAt(h, "max-age=", 0);
    assert h[8] == ds[0];
    assert MaxAgeAt(h, 0);
    var e := DigitRunEnd(h, 8);
    forall i | 8 <= i < 8 + |ds| ensures IsDigit(h[i]) {
      assert h[i] == ds[i - 8];
    }
    assert rest != [] ==> h[8 + |ds|] == rest[0];
    assert e == 8 + |ds|;
    assert h[8..e] == ds;
    DecimalRoundTrip(n);
  }

  /** A policy `max-age=<n>` followed by anything but a digit is reported too
      short exactly when `n` is below one year. */
  lemma HstsAgeThreshold(n: nat, rest: string)
    requires rest == [] || !IsDigit(rest[0])
    ensures var h := "max-age=" + NatToString(n) + rest;
      HstsMaxAgeIssues(h) == if n < MinMaxAge then [HstsShortMaxAge(n)] else []
  {
    var h := "max-age=" + NatToString(n) + rest;
    MaxAgeRoundTrip(n, rest);
    assert OccursAt(h, "max-age", 0);
  }

  /** The whole HSTS verdict on `max-age=<n>` followed by anything but a
      digit: too short below one year, and missing `includeSubDomains` unless
      the lower-cased value names it. */
  lemma HstsVerdict(n: nat, rest: string)
    requires rest == [] || !IsDigit(rest[0])
    ensures var h := "max-age=" + NatToString(n) + rest;
      HstsIssues(h) == (if n < MinMaxAge then [HstsShortMaxAge(n)] else [])
                       + (if Contains(Lower(h), "includesubdomains") then [] else [HstsMissingSubdomains])
  {
    HstsAgeThreshold(n, rest);
  }

  // ---------------------------------------------------------------------
  // Informational checks
  // ---------------------------------------------------------------------

  datatype AdditionalHeaders = AdditionalHeaders(
    clearSiteData: bool, reportTo: bool, featurePolicy: bool, expectCt: bool)

  /** `check_owasp_compliance`: one entry per essential header. */
  datatype OwaspCompliance = OwaspCompliance(
    contentSecurityPolicy: bool,
    xContentTypeOptions: bool,
    xFrameOptions: bool,
    strictTransportSecurity: bool,
    xXssProtection: bool,
    referrerPolicy: bool,
    permissionsPolicy: bool,
    crossOriginOpenerPolicy: bool,
    crossOriginEmbedderPolicy: bool,
    crossOriginResourcePolicy: bool)

  function CheckAdditionalHeaders(headers: HeaderSet): (r: AdditionalHeaders)
    ensures r.clearSiteData <==> ClearSiteData.Name() in headers
    ensures r.reportTo <==> ReportTo.Name() in headers
    ensures r.featurePolicy <==> FeaturePolicy.Name() in headers
    ensures r.expectCt <==> ExpectCt.Name() in headers
  {
    AdditionalHeaders(
      Has(headers, ClearSiteData), Has(headers, ReportTo),
      Has(headers, FeaturePolicy), Has(headers, ExpectCt))
  }

  function CheckOwaspCompliance(headers: HeaderSet): (r: OwaspCompliance)
    ensures r.xContentTypeOptions <==>
      Has(headers, XContentTypeOptions) && Lower(headers[XContentTypeOptions.Name()]) == "nosniff"
  {
    OwaspCompliance(
      Has(headers, ContentSecurityPolicy),
      Lower(GetOrEmpty(headers, XContentTypeOptions)) == "nosniff",
      Has(headers, XFrameOptions),
      Has(headers, StrictTransportSecurity),
      Has(headers, XXssProtection),
      Has(headers, ReferrerPolicy),
      Has(headers, PermissionsPolicy),
      Has(headers, CrossOriginOpenerPolicy),
      Has(headers, CrossOriginEmbedderPolicy),
      Has(headers, CrossOriginResourcePolicy))
  }

  /** Every OWASP entry but `x_content_type_options` says "not reported
      missing"; that one demands `nosniff` as well, so it is true only when
      the header is not missing. */
  lemma OwaspAgreesWithMissing(headers: HeaderSet)
    ensures var r, m := CheckOwaspCompliance(headers), MissingEssential(headers);
      && (r.contentSecurityPolicy <==> ContentSecurityPolicy !in m)
      && (r.xContentTypeOptions ==> XContentTypeOptions !in m)
      && (r.xFrameOptions <==> XFrameOptions !in m)
      && (r.strictTransportSecurity <==> StrictTransportSecurity !in m)
      && (r.xXssProtection <==> XXssProtection !in m)
      && (r.referrerPolicy <==> ReferrerPolicy !in m)
      && (r.permissionsPolicy <==> PermissionsPolicy !in m)
      && (r.crossOriginOpenerPolicy <==> CrossOriginOpenerPolicy !in m)
      && (r.crossOriginEmbedderPolicy <==> CrossOriginEmbedderPolicy !in m)
      && (r.crossOriginResourcePolicy <==> CrossOriginResourcePolicy !in m)
  {
  }

  // ---------------------------------------------------------------------
  // The whole analysis
  // ---------------------------------------------------------------------

  /** The analysis record; `wordpressIssues` is absent until CMS detection adds it. */
  datatype HeaderAnalysis = HeaderAnalysis(
    missingEssential: seq<HeaderName>,
    deprecated: seq<HeaderName>,
    insecure: seq<string>,
    cspIssues: seq<string>,
    cookieIssues: seq<string>,
    corsIssues: seq<string>,
    hstsIssues: seq<string>,
    additionalHeaders: AdditionalHeaders,
    owaspCompliance: OwaspCompliance,
    wordpressIssues: Option<seq<string>>)

  /** The issues of one analysed header, or none when the response lacks it. */
  function IssuesIfPresent(headers: HeaderSet, h: HeaderName, analyse: string -> seq<string>): seq<string>
  {
    if Has(headers, h) then analyse(headers[h.Name()]) else []
  }

  /** `analyze_headers`: each issue list comes from its own header and is
      empty when that header is absent; `insecure` is never filled. */
  function AnalysisOf(headers: HeaderSet): (a: HeaderAnalysis)
    ensures a.insecure == [] && a.wordpressIssues.None?
    ensures !Has(headers, ContentSecurityPolicy) ==> a.cspIssues == []
    ensures !Has(headers, SetCookie) ==> a.cookieIssues == []
    ensures !Has(headers, AccessControlAllowOrigin) ==> a.corsIssues == []
    ensures !Has(headers, StrictTransportSecurity) ==> a.hstsIssues == []
    ensures forall h :: !(h in a.missingEssential && h in a.deprecated)
  {
    HeaderAnalysis(
      MissingEssential(headers),
      Deprecated(headers),
      [],
      IssuesIfPresent(headers, ContentSecurityPolicy, CspIssues),
      IssuesIfPresent(headers, SetCookie, CookieIssues),
      IssuesIfPresent(headers, AccessControlAllowOrigin, CorsIssues),
      IssuesIfPresent(headers, StrictTransportSecurity, HstsIssues),
      CheckAdditionalHeaders(headers),
      CheckOwaspCompliance(headers),
      None)
  }

  method AnalyzeHeaders(headers: HeaderSet) returns (analysis: HeaderAnalysis)
    ensures analysis == AnalysisOf(headers)
  {
    analysis := HeaderAnalysis([], [], [], [], [], [], [],
      CheckAdditionalHeaders(headers), CheckOwaspCompliance(headers), None);
    analysis := analysis.(missingEssential := MissingEssential(headers));
    analysis := analysis.(deprecated := Deprecated(headers));
    if Has(headers, ContentSecurityPolicy) {
      var issues := AnalyzeCsp(headers[ContentSecurityPolicy.Name()]);
      analysis := analysis.(cspIssues := issues);
    }
    if Has(headers, SetCookie) {
      var issues := AnalyzeCookies(headers[SetCookie.Name()]);
      analysis := analysis.(cookieIssues := issues);
    }
    if Has(headers, AccessControlAllowOrigin) {
      var issues := AnalyzeCors(headers[AccessControlAllowOrigin.Name()]);
      analysis := analysis.(corsIssues := issues);
    }
    if Has(headers, StrictTransportSecurity) {
      var issues := AnalyzeHsts(headers[StrictTransportSecurity.Name()]);
      analysis := analysis.(hstsIssues := issues);
    }
  }
}
