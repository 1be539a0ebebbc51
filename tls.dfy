/**
 * The TLS scan of `utils/ssl.py`.  The socket handshake is not modelled: what
 * the handshake, the URL parser and the clock report is passed in as a
 * `Handshake` value (or the failure that aborted it), and the scan itself is
 * the step-by-step filling of the result record, its defaults, the
 * weak-cipher filter and the error path.
 */
module Tls {
  import opened Wrappers
  import opened Text

  // ---------------------------------------------------------------------
  // Weak ciphers
  // ---------------------------------------------------------------------

  /** The substrings that mark a cipher suite name as weak. */
  const WeakMarkers: seq<string> := ["rc4", "des", "3des", "md5"]

  /** A cipher is weak when its lower-cased name contains one of the markers. */
  predicate IsWeakCipher(name: string)
  {
    exists k :: 0 <= k < |WeakMarkers| && Contains(Lower(name), WeakMarkers[k])
  }

  /** The weak cipher names of `names`, in their order. */
  function WeakCiphers(names: seq<string>): (r: seq<string>)
    ensures forall c :: c in r <==> c in names && IsWeakCipher(c)
    ensures |r| <= |names|
    decreases |names|
  {
    if names == [] then []
    else
      var init := WeakCiphers(names[..|names| - 1]);
      var last := names[|names| - 1];
      assert names == names[..|names| - 1] + [last];
      if IsWeakCipher(last) then init + [last] else init
  }

  /** The weak ciphers keep the order in which the handshake listed them. */
  lemma {:induction false} WeakCiphersInOrder(names: seq<string>)
    ensures Subsequence(WeakCiphers(names), names)
    decreases |names|
  {
    if names != [] {
      var init := names[..|names| - 1];
      var last := names[|names| - 1];
      assert names == init + [last];
      WeakCiphersInOrder(init);
      SubsequenceSnoc(WeakCiphers(init), init, last);
    }
  }

  /** The `3des` marker is redundant: every name containing it contains `des`. */
  lemma WeakMarkersReduce(name: string)
    ensures IsWeakCipher(name) <==>
      Contains(Lower(name), "rc4") || Contains(Lower(name), "des") || Contains(Lower(name), "md5")
  {
    var l := Lower(name);
    assert OccursAt("3des", "des", 1);
    if Contains(l, "3des") {
      ContainsTrans(l, "3des", "des");
    }
    if Contains(l, "rc4") { assert Contains(l, WeakMarkers[0]); }
    if Contains(l, "des") { assert Contains(l, WeakMarkers[1]); }
    if Contains(l, "md5") { assert Contains(l, WeakMarkers[3]); }
  }

  /** A suite with a triple-DES cipher is weak. */
  lemma TripleDesIsWeak(name: string)
    requires name == "TLS_RSA_WITH_3DES_EDE_CBC_SHA"
    ensures IsWeakCipher(name)
  {
    var l := Lower(name);
    assert l[14] == 'd' && l[15] == 'e' && l[16] == 's';
    assert OccursAt(l, WeakMarkers[1], 14);
  }

  /** An AES-GCM suite is not weak: its lower-cased name has neither `r` nor
      `d`, and every marker has one of them. */
  lemma AesGcmIsNotWeak(name: string)
    requires name == "TLS_AES_128_GCM_SHA256"
    ensures !IsWeakCipher(name)
  {
    var l := Lower(name);
    assert 'r' !in l && 'd' !in l;
    LacksChar(l, WeakMarkers[0], 0);
    LacksChar(l, WeakMarkers[1], 0);
    LacksChar(l, WeakMarkers[2], 1);
    LacksChar(l, WeakMarkers[3], 1);
  }

  // ---------------------------------------------------------------------
  // The scan result
  // ---------------------------------------------------------------------

  /** `expires_in_days`: a day count, or a text when the date is missing or unreadable. */
  datatype Expiry = Days(days: int) | Note(text: string)

  datatype Certificate = Certificate(
    issuer: map<string, string>,
    subject: map<string, string>,
    version: string,
    serialNumber: string,
    notBefore: string,
    notAfter: string,
    expiresInDays: Expiry,
    signatureAlgorithm: string)

  datatype Protocols = Protocols(
    sslv2: bool, sslv3: bool, tls10: bool, tls11: bool, tls12: bool, tls13: bool)

  /** The result record.  `certificate` and `protocols` are `None` while they
      are still the empty dictionaries of the default record;
      `supportedCiphers` and `error` are `None` while the key is absent. */
  datatype ScanResult = ScanResult(
    certificate: Option<Certificate>,
    protocols: Option<Protocols>,
    supportedCiphers: Option<seq<string>>,
    weakCiphers: seq<string>,
    compressionEnabled: bool,
    ocspStapling: bool,
    preloadStatus: string,
    error: Option<string>)

  /** The record every scan starts from. */
  const DefaultResult := ScanResult(None, None, None, [], false, false, "unknown", None)

  /** What the peer certificate carries: the first attribute of each
      relative distinguished name of issuer and subject, and the optional
      fields, `None` when the certificate lacks them. */
  datatype PeerCert = PeerCert(
    issuer: seq<(string, string)>,
    subject: seq<(string, string)>,
    version: Option<string>,
    serialNumber: Option<string>,
    notBefore: Option<string>,
    notAfter: Option<string>,
    signatureAlgorithm: Option<string>)

  /** What a completed handshake reports.  `expiry` is what parsing `notAfter`
      and subtracting the current time gives (the clock and the date parser
      are not modelled); `version` is the negotiated protocol as text;
      `ocsp` is the stapling flag, false when the lookup is absent or raises. */
  datatype Handshake = Handshake(
    cert: PeerCert,
    expiry: Result<int>,
    version: string,
    sharedCiphers: seq<string>,
    compression: bool,
    ocsp: bool)

  const InvalidHostMsg := "Invalid URL or hostname provided for SSL scan"

  function GetOr(v: Option<string>, default: string): string
  {
    if v.Some? then v.value else default
  }

  /** `dict(pairs)`: a later pair for the same key overrides an earlier one. */
  function PairsToMap(pairs: seq<(string, string)>): (m: map<string, string>)
    ensures forall k :: k in m <==> exists i :: 0 <= i < |pairs| && pairs[i].0 == k
    ensures forall k :: k in m ==> exists i :: 0 <= i < |pairs| && pairs[i] == (k, m[k])
                                             && forall j :: i < j < |pairs| ==> pairs[j].0 != k
    decreases |pairs|
  {
    if pairs == [] then map[]
    else
      var init := pairs[..|pairs| - 1];
      var last := pairs[|pairs| - 1];
      var m0 := PairsToMap(init);
      assert forall i :: 0 <= i < |init| ==> init[i] == pairs[i];
      assert pairs == init + [last];
      LastPairWins(init, last, m0);
      m0[last.0 := last.1]
  }

  /** One step of `dict(pairs)`: if every key of `m0` is bound to the value of
      its last pair in `init`, adding `last` keeps that true for `init + [last]`. */
  lemma LastPairWins(init: seq<(string, string)>, last: (string, string), m0: map<string, string>)
    requires forall k :: k in m0 ==> exists i :: 0 <= i < |init| && init[i] == (k, m0[k])
                                              && forall j :: i < j < |init| ==> init[j].0 != k
    ensures var pairs, m := init + [last], m0[last.0 := last.1];
      forall k :: k in m ==> exists i :: 0 <= i < |pairs| && pairs[i] == (k, m[k])
                                      && forall j :: i < j < |pairs| ==> pairs[j].0 != k
  {
    var pairs, m := init + [last], m0[last.0 := last.1];
    forall k | k in m
      ensures exists i :: 0 <= i < |pairs| && pairs[i] == (k, m[k])
                          && forall j :: i < j < |pairs| ==> pairs[j].0 != k
    {
      if k == last.0 {
        assert pairs[|init|] == (k, m[k]);
      } else {
        var i :| 0 <= i < |init| && init[i] == (k, m0[k]) && forall j :: i < j < |init| ==> init[j].0 != k;
        assert pairs[i] == (k, m[k]);
        assert forall j :: i < j < |pairs| ==> pairs[j].0 != k;
      }
    }
  }

  /** The host to connect to: the URL's host when the parser finds one, the
      stripped input otherwise. */
  function Hostname(target: string, parsedHost: string): string
  {
    if parsedHost != "" then parsedHost else Strip(target)
  }

  function ExpiryOf(notAfter: string, expiry: Result<int>): Expiry
  {
    if notAfter == "" then Note("unknown")
    else match expiry
      case Success(d) => Days(d)
      case Failure(msg) => Note("error: " + msg)
  }

  function CertificateOf(cert: PeerCert, expiry: Result<int>): Certificate
  {
    var notAfter := GetOr(cert.notAfter, "");
    Certificate(
      PairsToMap(cert.issuer), PairsToMap(cert.subject),
      GetOr(cert.version, "unknown"), GetOr(cert.serialNumber, "unknown"),
      GetOr(cert.notBefore, "unknown"), notAfter, ExpiryOf(notAfter, expiry),
      GetOr(cert.signatureAlgorithm, "unknown"))
  }

  /** The protocol table: the legacy protocols are never probed and always false. */
  function ProtocolsOf(version: string): Protocols
  {
    Protocols(false, false, false, false, Contains(version, "TLSv1.2"), Contains(version, "TLSv1.3"))
  }

  /** The record a completed handshake fills in over the defaults. */
  function HandshakeResult(hs: Handshake): ScanResult
  {
    var r := DefaultResult.(certificate := Some(CertificateOf(hs.cert, hs.expiry)),
                            protocols := Some(ProtocolsOf(hs.version)));
    var r := if hs.sharedCiphers != [] then
               r.(supportedCiphers := Some(hs.sharedCiphers), weakCiphers := WeakCiphers(hs.sharedCiphers))
             else r;
    r.(compressionEnabled := hs.compression, ocspStapling := hs.ocsp)
  }

  /** `ssl_scan`: an empty host or a failed connection leaves the defaults in
      place and records the error. */
  function ScanOf(target: string, parsedHost: string, connect: Result<Handshake>): (r: ScanResult)
    ensures r.error.None? ==> r.certificate.Some? && r.protocols.Some?
    ensures r.supportedCiphers.None? ==> r.weakCiphers == []
    ensures r.supportedCiphers.Some? ==> r.supportedCiphers.value != [] && r.error.None?
    ensures r.supportedCiphers.Some? ==> r.weakCiphers == WeakCiphers(r.supportedCiphers.value)
  {
    if Hostname(target, parsedHost) == "" then DefaultResult.(error := Some(InvalidHostMsg))
    else match connect
      case Failure(msg) => DefaultResult.(error := Some(msg))
      case Success(hs) => HandshakeResult(hs)
  }

  method SslScan(target: string, parsedHost: string, connect: Result<Handshake>) returns (results: ScanResult)
    ensures results == ScanOf(target, parsedHost, connect)
  {
    results := DefaultResult;
    var hostname := if parsedHost != "" then parsedHost else Strip(target);
    if hostname == "" {
      results := results.(error := Some(InvalidHostMsg));
      return;
    }
    if connect.Failure? {
      results := results.(error := Some(connect.error));
      return;
    }
    var hs := connect.value;
    results := results.(certificate := Some(CertificateOf(hs.cert, hs.expiry)));
    results := results.(protocols := Some(ProtocolsOf(hs.version)));
    if hs.sharedCiphers != [] {
      results := results.(supportedCiphers := Some(hs.sharedCiphers));
      results := results.(weakCiphers := WeakCiphers(hs.sharedCiphers));
    }
    results := results.(compressionEnabled := hs.compression);
    results := results.(ocspStapling := hs.ocsp);
  }

  // ---------------------------------------------------------------------
  // Properties of the scan
  // ---------------------------------------------------------------------

  /** The error key is set exactly when the host is empty or the connection
      fails, and then every other field still holds its default. */
  lemma ErrorPath(target: string, parsedHost: string, connect: Result<Handshake>)
    ensures ScanOf(target, parsedHost, connect).error.Some? <==>
      Hostname(target, parsedHost) == "" || connect.Failure?
    ensures ScanOf(target, parsedHost, connect).error.Some? ==>
      ScanOf(target, parsedHost, connect).(error := None) == DefaultResult
  {
  }

  /** A blank input without a parsed host is rejected with the invalid-host message. */
  lemma BlankTargetRejected(target: string, connect: Result<Handshake>)
    requires forall i :: 0 <= i < |target| ==> IsSpace(target[i])
    ensures ScanOf(target, "", connect) == DefaultResult.(error := Some(InvalidHostMsg))
  {
  }

  /** SSLv2, SSLv3, TLS 1.0 and TLS 1.1 are always reported unsupported. */
  lemma LegacyProtocolsOff(target: string, parsedHost: string, connect: Result<Handshake>)
    ensures var p := ScanOf(target, parsedHost, connect).protocols;
      p.Some? ==> !p.value.sslv2 && !p.value.sslv3 && !p.value.tls10 && !p.value.tls11
  {
  }

  /** The weak ciphers are an order-preserving selection of the supported
      ciphers, and there are none when no cipher list was reported. */
  lemma WeakAmongSupported(target: string, parsedHost: string, connect: Result<Handshake>)
    ensures var r := ScanOf(target, parsedHost, connect);
      if r.supportedCiphers.Some? then Subsequence(r.weakCiphers, r.supportedCiphers.value)
      else r.weakCiphers == []
  {
    var r := ScanOf(target, parsedHost, connect);
    if r.supportedCiphers.Some? {
      WeakCiphersInOrder(connect.value.sharedCiphers);
    }
  }
}
