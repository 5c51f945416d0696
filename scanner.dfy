/** The URL threat scorer of the background worker (`analyzeURL` and
    `extractRootDomain`) and its time-limited result cache.

    The specification is the function `Evaluate`, built from one function
    per rule category; `Scan` computes the same result the way the worker
    does, one category after another with loops over the rule lists, and
    `Analyzer.AnalyzeUrl` puts the cache in front of it. */
module Scanner {
  import opened Text
  import opened Patterns
  import opened Rules

  /** The three fields of a parsed `URL` object the scanner reads.  As the
      WHATWG parser produces them, `protocol` keeps its trailing colon
      ("http:").  The rules fold case only where the worker does: patterns
      match case-insensitively, subdomain labels are lower-cased, and the
      TLD suffix test is case-sensitive. */
  datatype Url = Url(href: string, protocol: string, hostname: string)

  /** The `type` of a threat indicator, one per rule category, in the order
      the categories are evaluated. */
  datatype Kind =
    | SuspiciousPattern | SuspiciousTld | Typosquatting | SuspiciousSubdomain
    | LongUrl | IpAddress | DangerousProtocol | EmbeddedUrl | DeceptiveUrl
    | EncodedDomain | NoHttps

  datatype Severity = Low | Medium | High

  datatype Threat = Threat(kind: Kind, description: string, severity: Severity)

  datatype Level = Safe | Low | Medium | High | Critical

  datatype ScanResult = ScanResult(threatLevel: Level, threats: seq<Threat>, score: nat, prediction: string)

  /** The `type` string the worker stores with each indicator. */
  function Tag(k: Kind): string
  {
    match k
    case SuspiciousPattern => "suspicious_pattern"
    case SuspiciousTld => "suspicious_tld"
    case Typosquatting => "typosquatting"
    case SuspiciousSubdomain => "suspicious_subdomain"
    case LongUrl => "long_url"
    case IpAddress => "ip_address"
    case DangerousProtocol => "dangerous_protocol"
    case EmbeddedUrl => "embedded_url"
    case DeceptiveUrl => "deceptive_url"
    case EncodedDomain => "encoded_domain"
    case NoHttps => "no_https"
  }

  /** Distinct kinds are stored under distinct `type` strings, so the
      string identifies the rule that pushed the indicator. */
  lemma TagInjective(a: Kind, b: Kind)
    ensures Tag(a) == Tag(b) <==> a == b
  {
    if a != b {
      var ta, tb := Tag(a), Tag(b);
      if |ta| == |tb| {
        assert ta[0] != tb[0];
      }
    }
  }

  /** What one indicator of each kind adds to the score. */
  function Weight(k: Kind): nat
  {
    match k
    case SuspiciousPattern => 25
    case SuspiciousTld => 15
    case Typosquatting => 50
    case SuspiciousSubdomain => 20
    case LongUrl => 10
    case IpAddress => 30
    case DangerousProtocol => 60
    case EmbeddedUrl => 25
    case DeceptiveUrl => 40
    case EncodedDomain => 25
    case NoHttps => 10
  }

  /** Position of each category in the evaluation order. */
  function Rank(k: Kind): nat
  {
    match k
    case SuspiciousPattern => 0
    case SuspiciousTld => 1
    case Typosquatting => 2
    case SuspiciousSubdomain => 3
    case LongUrl => 4
    case IpAddress => 5
    case DangerousProtocol => 6
    case EmbeddedUrl => 7
    case DeceptiveUrl => 8
    case EncodedDomain => 9
    case NoHttps => 10
  }

  // ---------------------------------------------------------------------------
  // The indicators each rule pushes

  const PatternThreat := Threat(SuspiciousPattern, "I sense darkness in this URL", Severity.Medium)
  function TldThreat(tld: string): Threat
  {
    Threat(SuspiciousTld, "Risky domain territory: " + tld, Severity.Low)
  }
  const TyposquatThreat :=
    Threat(Typosquatting, "A shapeshifter! This site impersonates a trusted brand", Severity.High)
  function SubdomainThreat(subdomain: string): Threat
  {
    Threat(SuspiciousSubdomain, "Deceptive subdomain \"" + subdomain + "\" detected", Severity.Medium)
  }
  const LongUrlThreat := Threat(LongUrl, "Unusually long URL - something may be hidden", Severity.Low)
  const IpThreat := Threat(IpAddress, "Raw IP address - legitimate sites use domain names", Severity.Medium)
  function ProtocolThreat(protocol: string): Threat
  {
    Threat(DangerousProtocol, "Dangerous protocol: " + protocol, Severity.High)
  }
  const EmbeddedThreat := Threat(EmbeddedUrl, "Hidden redirect - deception detected", Severity.Medium)
  const AtThreat := Threat(DeceptiveUrl, "URL trickery with @ symbol detected", Severity.High)
  const EncodedThreat := Threat(EncodedDomain, "Encoded characters hiding true identity", Severity.Medium)
  const NoHttpsThreat := Threat(NoHttps, "Unencrypted connection - data exposed", Severity.Low)

  // ---------------------------------------------------------------------------
  // The rules with one test each

  predicate IsLongUrl(href: string)
  {
    |href| > MaxUrlLength
  }

  predicate IsDigit(c: char)
  {
    '0' <= c <= '9'
  }

  /** `/^(\d{1,3}\.){3}\d{1,3}$/`: four dot-separated runs of one to three
      ASCII digits (no check that a run is at most 255). */
  predicate IsIpLiteral(hostname: string)
  {
    var parts := Split(hostname, '.');
    |parts| == 4 &&
    forall k :: 0 <= k < 4 ==> 1 <= |parts[k]| <= 3 && forall j :: 0 <= j < |parts[k]| ==> IsDigit(parts[k][j])
  }

  predicate IsDangerousProtocol(protocol: string)
  {
    protocol == "data:" || protocol == "javascript:"
  }

  /** `/http/gi` matches the URL more than once. */
  predicate HasEmbeddedUrl(href: string)
  {
    MatchCount(href, "http") > 1
  }

  predicate IsDeceptiveAt(href: string)
  {
    '@' in href && !StartsWith(href, "mailto:")
  }

  predicate HasEncodedByte(hostname: string)
  {
    Test(hostname, EncodedByte)
  }

  predicate IsPlainHttp(protocol: string)
  {
    protocol == "http:"
  }

  // ---------------------------------------------------------------------------
  // The rules with a list each; every function takes a prefix of the list,
  // so that a loop over the list extends it one element at a time

  /** The indicator `t` when its rule fires, and nothing otherwise. */
  function Flag(fires: bool, t: Threat): seq<Threat>
  {
    if fires then [t] else []
  }

  function PatternThreats(res: seq<Regex>, href: string): seq<Threat>
  {
    if res == [] then []
    else PatternThreats(res[..|res| - 1], href) + Flag(Test(href, res[|res| - 1]), PatternThreat)
  }

  function TldThreats(tlds: seq<string>, hostname: string): seq<Threat>
  {
    if tlds == [] then []
    else
      var tld := tlds[|tlds| - 1];
      TldThreats(tlds[..|tlds| - 1], hostname) + Flag(EndsWith(hostname, tld), TldThreat(tld))
  }

  function TyposquatThreats(res: seq<Regex>, hostname: string): seq<Threat>
  {
    if res == [] then []
    else TyposquatThreats(res[..|res| - 1], hostname) + Flag(Test(hostname, res[|res| - 1]), TyposquatThreat)
  }

  /** A label is passed over when its text equals the hostname's
      second-to-last label; this compares values, not positions. */
  predicate IsRegistrableLabel(subdomain: string, labels: seq<string>)
  {
    |labels| >= 2 && subdomain == labels[|labels| - 2]
  }

  predicate IsSuspiciousLabel(subdomain: string, labels: seq<string>, suspicious: seq<string>)
  {
    Lower(subdomain) in suspicious && !IsRegistrableLabel(subdomain, labels)
  }

  /** The indicators for the labels `ls`, a prefix of the hostname's
      `labels`, against the list of `suspicious` labels. */
  function SubdomainThreats(ls: seq<string>, labels: seq<string>, suspicious: seq<string>): seq<Threat>
  {
    if ls == [] then []
    else
      var subdomain := ls[|ls| - 1];
      SubdomainThreats(ls[..|ls| - 1], labels, suspicious)
      + Flag(IsSuspiciousLabel(subdomain, labels, suspicious), SubdomainThreat(subdomain))
  }

  /** Every indicator of a URL outside the allowlist, in evaluation order. */
  function Threats(url: Url): seq<Threat>
  {
    var labels := Split(url.hostname, '.');
    PatternThreats(SuspiciousPatterns, url.href)
    + TldThreats(SuspiciousTlds, url.hostname)
    + TyposquatThreats(TyposquatPatterns, url.hostname)
    + SubdomainThreats(labels, labels, SuspiciousSubdomains)
    + Flag(IsLongUrl(url.href), LongUrlThreat)
    + Flag(IsIpLiteral(url.hostname), IpThreat)
    + Flag(IsDangerousProtocol(url.protocol), ProtocolThreat(url.protocol))
    + Flag(HasEmbeddedUrl(url.href), EmbeddedThreat)
    + Flag(IsDeceptiveAt(url.href), AtThreat)
    + Flag(HasEncodedByte(url.hostname), EncodedThreat)
    + Flag(IsPlainHttp(url.protocol), NoHttpsThreat)
  }

  function TotalWeight(ts: seq<Threat>): nat
  {
    if ts == [] then 0 else TotalWeight(ts[..|ts| - 1]) + Weight(ts[|ts| - 1].kind)
  }

  // ---------------------------------------------------------------------------
  // Classification

  /** The threat level of a score, checked from the highest threshold down. */
  function LevelOf(score: int): (r: Level)
    ensures r == Level.Safe <==> score <= 0
    ensures r == Level.Low <==> 0 < score < 25
    ensures r == Level.Medium <==> 25 <= score < 50
    ensures r == Level.High <==> 50 <= score < 75
    ensures r == Level.Critical <==> 75 <= score
  {
    if score >= 75 then Level.Critical
    else if score >= 50 then Level.High
    else if score >= 25 then Level.Medium
    else if score > 0 then Level.Low
    else Level.Safe
  }

  /** Severity order of the levels. */
  function Order(l: Level): nat
  {
    match l
    case Safe => 0
    case Low => 1
    case Medium => 2
    case High => 3
    case Critical => 4
  }

  function Prediction(l: Level): string
  {
    match l
    case Safe => "\U{1F441}\U{FE0F} Clear vision - safe to proceed"
    case Low => "\U{1F440} Minor disturbance - stay aware"
    case Medium => "\U{1F52E} Clouded vision - exercise caution"
    case High => "\U{26A0}\U{FE0F} Dark premonition - threat detected"
    case Critical => "\U{1F6A8} VISION OF DANGER - Do not proceed!"
  }

  /** The verdict of an allowlisted URL; it differs from `Prediction(Safe)`. */
  const AllowlistPrediction: string := "\U{1F441}\U{FE0F} Clear vision - safe passage ahead"

  const AllowlistResult := ScanResult(Level.Safe, [], 0, AllowlistPrediction)

  /** The result of scoring a list of indicators. */
  function Classified(threats: seq<Threat>): ScanResult
  {
    var score := TotalWeight(threats);
    ScanResult(LevelOf(score), threats, score, Prediction(LevelOf(score)))
  }

  /** What every result the scanner hands out satisfies: the score is the
      sum of the indicators' weights, the level is the score's level, and
      the verdict is the level's, or the allowlist verdict. */
  ghost predicate WellFormed(r: ScanResult)
  {
    r.score == TotalWeight(r.threats) &&
    r.threatLevel == LevelOf(r.score) &&
    (r.prediction == Prediction(r.threatLevel) || (r.threats == [] && r.prediction == AllowlistPrediction))
  }

  // ---------------------------------------------------------------------------
  // Root domain and the whole evaluation

  /** The last two dot-separated labels of a hostname, or the hostname
      itself when it has no dot; there is no public-suffix handling. */
  function ExtractRootDomain(hostname: string): (r: string)
    ensures EndsWith(hostname, r)
    ensures '.' !in hostname ==> r == hostname
    ensures '.' in hostname ==>
      var labels := Split(hostname, '.');
      |labels| >= 2 && Split(r, '.') == labels[|labels| - 2..]
  {
    var parts := Split(hostname, '.');
    SplitSingle(hostname, '.');
    if |parts| >= 2 then
      var n := |parts|;
      JoinSplit(hostname, '.');
      SplitParts(hostname, '.');
      SplitJoin(parts[n - 2..], '.');
      if n > 2 then
        JoinAt(parts, '.', n - 2);
        Join(parts[n - 2..], '.')
      else
        assert parts[n - 2..] == parts;
        Join(parts[n - 2..], '.')
    else
      hostname
  }

  predicate IsAllowlisted(hostname: string)
  {
    ExtractRootDomain(hostname) in SafeDomains
  }

  /** The scan result of a URL: the allowlist overrides every rule. */
  function Evaluate(url: Url): (r: ScanResult)
    ensures WellFormed(r)
    ensures IsAllowlisted(url.hostname) ==>
      r.threatLevel == Level.Safe && r.score == 0 && r.threats == [] && r.prediction == AllowlistPrediction
    ensures !IsAllowlisted(url.hostname) ==> r.threats == Threats(url) && r.prediction == Prediction(r.threatLevel)
  {
    if IsAllowlisted(url.hostname) then AllowlistResult else Classified(Threats(url))
  }

  // ---------------------------------------------------------------------------
  // The scanner as the worker runs it

  lemma TotalWeightPush(ts: seq<Threat>, t: Threat)
    ensures TotalWeight(ts + [t]) == TotalWeight(ts) + Weight(t.kind)
  {
    assert (ts + [t])[..|ts|] == ts;
  }

  /** `if (fires) { threats.push(t); threatScore += w; }` */
  method PushWhen(fires: bool, t: Threat, w: nat, threats0: seq<Threat>, score0: nat)
    returns (threats: seq<Threat>, score: nat)
    requires score0 == TotalWeight(threats0) && w == Weight(t.kind)
    ensures threats == threats0 + Flag(fires, t)
    ensures score == TotalWeight(threats)
    ensures score == if fires then score0 + w else score0
  {
    threats, score := threats0, score0;
    if fires {
      TotalWeightPush(threats0, t);
      threats, score := threats0 + [t], score0 + w;
    }
  }

  /** The pattern loop of `analyzeURL`: each of the eleven patterns that
      matches the URL pushes one indicator and adds 25. */
  method PushPatternThreats(patterns: seq<Regex>, href: string, threats0: seq<Threat>, score0: nat)
    returns (threats: seq<Threat>, score: nat)
    requires score0 == TotalWeight(threats0)
    ensures threats == threats0 + PatternThreats(patterns, href)
    ensures score == TotalWeight(threats)
  {
    threats, score := threats0, score0;
    for i := 0 to |patterns|
      invariant threats == threats0 + PatternThreats(patterns[..i], href)
      invariant score == TotalWeight(threats)
    {
      assert patterns[..i + 1][..i] == patterns[..i];
      ConcatAssoc(threats0, PatternThreats(patterns[..i], href), Flag(Test(href, patterns[i]), PatternThreat));
      threats, score := PushWhen(Test(href, patterns[i]), PatternThreat, 25, threats, score);
    }
    assert patterns[..|patterns|] == patterns;
  }

  /** The TLD loop: each listed suffix the hostname ends with pushes one
      indicator naming it and adds 15. */
  method PushTldThreats(tlds: seq<string>, hostname: string, threats0: seq<Threat>, score0: nat)
    returns (threats: seq<Threat>, score: nat)
    requires score0 == TotalWeight(threats0)
    ensures threats == threats0 + TldThreats(tlds, hostname)
    ensures score == TotalWeight(threats)
  {
    threats, score := threats0, score0;
    for i := 0 to |tlds|
      invariant threats == threats0 + TldThreats(tlds[..i], hostname)
      invariant score == TotalWeight(threats)
    {
      assert tlds[..i + 1][..i] == tlds[..i];
      var tld := tlds[i];
      assert TldThreats(tlds[..i + 1], hostname) == TldThreats(tlds[..i], hostname) + Flag(EndsWith(hostname, tld), TldThreat(tld));
      ConcatAssoc(threats0, TldThreats(tlds[..i], hostname), Flag(EndsWith(hostname, tld), TldThreat(tld)));
      threats, score := PushWhen(EndsWith(hostname, tld), TldThreat(tld), 15, threats, score);
    }
    assert tlds[..|tlds|] == tlds;
  }

  /** The typosquatting loop: each brand look-alike found in the hostname
      pushes one indicator and adds 50. */
  method PushTyposquatThreats(patterns: seq<Regex>, hostname: string, threats0: seq<Threat>, score0: nat)
    returns (threats: seq<Threat>, score: nat)
    requires score0 == TotalWeight(threats0)
    ensures threats == threats0 + TyposquatThreats(patterns, hostname)
    ensures score == TotalWeight(threats)
  {
    threats, score := threats0, score0;
    for i := 0 to |patterns|
      invariant threats == threats0 + TyposquatThreats(patterns[..i], hostname)
      invariant score == TotalWeight(threats)
    {
      assert patterns[..i + 1][..i] == patterns[..i];
      ConcatAssoc(threats0, TyposquatThreats(patterns[..i], hostname), Flag(Test(hostname, patterns[i]), TyposquatThreat));
      threats, score := PushWhen(Test(hostname, patterns[i]), TyposquatThreat, 50, threats, score);
    }
    assert patterns[..|patterns|] == patterns;
  }

  /** The subdomain loop: each label of the hostname that is on the list,
      and whose text is not that of the second-to-last label, pushes one
      indicator naming it and adds 20. */
  method PushSubdomainThreats(suspicious: seq<string>, hostname: string, threats0: seq<Threat>, score0: nat)
    returns (threats: seq<Threat>, score: nat)
    requires score0 == TotalWeight(threats0)
    ensures var labels := Split(hostname, '.'); threats == threats0 + SubdomainThreats(labels, labels, suspicious)
    ensures score == TotalWeight(threats)
  {
    threats, score := threats0, score0;
    var subdomains := Split(hostname, '.');
    for i := 0 to |subdomains|
      invariant threats == threats0 + SubdomainThreats(subdomains[..i], subdomains, suspicious)
      invariant score == TotalWeight(threats)
    {
      assert subdomains[..i + 1][..i] == subdomains[..i];
      var subdomain := subdomains[i];
      ghost var fires := IsSuspiciousLabel(subdomain, subdomains, suspicious);
      assert SubdomainThreats(subdomains[..i + 1], subdomains, suspicious) ==
        SubdomainThreats(subdomains[..i], subdomains, suspicious) + Flag(fires, SubdomainThreat(subdomain));
      ConcatAssoc(threats0, SubdomainThreats(subdomains[..i], subdomains, suspicious), Flag(fires, SubdomainThreat(subdomain)));
      threats, score := PushWhen(IsSuspiciousLabel(subdomain, subdomains, suspicious), SubdomainThreat(subdomain), 20, threats, score);
    }
    assert subdomains[..|subdomains|] == subdomains;
  }

  /** The seven rules with a single test each, in the worker's order, given
      the outcome of each test; a fired rule pushes its indicator and adds
      its weight. */
  method PushSingleThreats(
    longUrl: bool, ipAddress: bool, dangerousProtocol: bool, embeddedUrl: bool,
    deceptiveUrl: bool, encodedDomain: bool, noHttps: bool, protocol: string,
    threats0: seq<Threat>, score0: nat)
    returns (threats: seq<Threat>, score: nat)
    requires score0 == TotalWeight(threats0)
    ensures threats == threats0
      + Flag(longUrl, LongUrlThreat)
      + Flag(ipAddress, IpThreat)
      + Flag(dangerousProtocol, ProtocolThreat(protocol))
      + Flag(embeddedUrl, EmbeddedThreat)
      + Flag(deceptiveUrl, AtThreat)
      + Flag(encodedDomain, EncodedThreat)
      + Flag(noHttps, NoHttpsThreat)
    ensures score == TotalWeight(threats)
  {
    threats, score := PushWhen(longUrl, LongUrlThreat, 10, threats0, score0);
    threats, score := PushWhen(ipAddress, IpThreat, 30, threats, score);
    threats, score := PushWhen(dangerousProtocol, ProtocolThreat(protocol), 60, threats, score);
    threats, score := PushWhen(embeddedUrl, EmbeddedThreat, 25, threats, score);
    threats, score := PushWhen(deceptiveUrl, AtThreat, 40, threats, score);
    threats, score := PushWhen(encodedDomain, EncodedThreat, 25, threats, score);
    threats, score := PushWhen(noHttps, NoHttpsThreat, 10, threats, score);
  }

  /** `analyzeURL` after the cache lookup: the allowlist check, then the
      rule categories in order, each pushing indicators and adding weights
      to one running score, then the level and verdict of that score. */
  method Scan(url: Url) returns (r: ScanResult)
    ensures r == Evaluate(url)
  {
    var domain := ExtractRootDomain(url.hostname);
    if domain in SafeDomains {
      return ScanResult(Level.Safe, [], 0, AllowlistPrediction);
    }
    var threats: seq<Threat> := [];
    var threatScore: nat := 0;
    threats, threatScore := PushPatternThreats(SuspiciousPatterns, url.href, threats, threatScore);
    assert threats == PatternThreats(SuspiciousPatterns, url.href);
    threats, threatScore := PushTldThreats(SuspiciousTlds, url.hostname, threats, threatScore);
    threats, threatScore := PushTyposquatThreats(TyposquatPatterns, url.hostname, threats, threatScore);
    threats, threatScore := PushSubdomainThreats(SuspiciousSubdomains, url.hostname, threats, threatScore);
    var href, hostname, protocol := url.href, url.hostname, url.protocol;
    threats, threatScore := PushSingleThreats(
      IsLongUrl(href), IsIpLiteral(hostname), IsDangerousProtocol(protocol), HasEmbeddedUrl(href),
      IsDeceptiveAt(href), HasEncodedByte(hostname), IsPlainHttp(protocol), protocol,
      threats, threatScore);
    assert threats == Threats(url);
    var threatLevel := LevelOf(threatScore);
    r := ScanResult(threatLevel, threats, threatScore, Prediction(threatLevel));
  }

  // ---------------------------------------------------------------------------
  // The result cache

  /** A `scanCache` value: a result and the time it was computed, in ms. */
  datatype CacheEntry = CacheEntry(result: ScanResult, timestamp: int)

  /** The cached result for `href` at time `now`, if there is a fresh one. */
  function Lookup(cache: map<string, CacheEntry>, href: string, now: int): (r: Option<ScanResult>)
    ensures r.Some? <==> href in cache && now - cache[href].timestamp < CacheDuration
    ensures r.Some? ==> r.value == cache[href].result
  {
    if href in cache && now - cache[href].timestamp < CacheDuration then Some(cache[href].result) else None
  }

  /** `r` is the scan of some URL whose `href` is `href`. */
  ghost predicate ScanOf(r: ScanResult, href: string)
  {
    exists url: Url :: url.href == href && r == Evaluate(url)
  }

  /** Every cached result is the scan of a URL with that `href`. */
  ghost predicate CacheValid(cache: map<string, CacheEntry>)
  {
    forall href :: href in cache ==> ScanOf(cache[href].result, href)
  }

  /** Storing a fresh scan keeps the cache valid. */
  lemma CacheValidStore(cache: map<string, CacheEntry>, url: Url, now: int)
    requires CacheValid(cache)
    ensures CacheValid(cache[url.href := CacheEntry(Evaluate(url), now)])
  {
  }

  /** A valid cache serves only scans of the requested `href`. */
  lemma CacheValidHit(cache: map<string, CacheEntry>, href: string)
    requires CacheValid(cache) && href in cache
    ensures ScanOf(cache[href].result, href)
    ensures WellFormed(cache[href].result)
  {
    var u: Url :| u.href == href && cache[href].result == Evaluate(u);
  }

  /** One cached `analyzeURL` call at time `now`, taking `cache0` to
      `cache` and answering `r`: a fresh entry for `url.href` is the answer
      and the cache stays as it is; otherwise the answer is the scan of
      `url`, stored under `url.href` with timestamp `now`. */
  ghost predicate CacheStep(cache0: map<string, CacheEntry>, cache: map<string, CacheEntry>, url: Url, now: int, r: ScanResult)
  {
    (Lookup(cache0, url.href, now).Some? ==> r == cache0[url.href].result && cache == cache0) &&
    (Lookup(cache0, url.href, now).None? ==> r == Evaluate(url) && cache == cache0[url.href := CacheEntry(r, now)])
  }

  /** The worker's `scanCache` together with `analyzeURL`; the clock is the
      parameter `now` of each call. */
  class Analyzer {
    var cache: map<string, CacheEntry>

    ghost predicate Valid()
      reads this
    {
      CacheValid(cache)
    }

    constructor ()
      ensures Valid() && cache == map[]
    {
      cache := map[];
    }

    /** `analyzeURL(url)` at time `now`: a fresh cached result for `url.href`
        is returned as it is; otherwise the URL is scanned and the result,
        the allowlist result included, is stored under `url.href` with
        timestamp `now`, replacing any stale entry. */
    method AnalyzeUrl(url: Url, now: int) returns (r: ScanResult)
      requires Valid()
      modifies this
      ensures Valid() && WellFormed(r)
      ensures ScanOf(r, url.href)
      ensures CacheStep(old(cache), cache, url, now, r)
    {
      var urlString := url.href;
      if urlString in cache && now - cache[urlString].timestamp < CacheDuration {
        CacheValidHit(cache, urlString);
        return cache[urlString].result;
      }
      r := Scan(url);
      CacheValidStore(cache, url, now);
      cache := cache[urlString := CacheEntry(r, now)];
    }
  }
}
