/** Properties of the scanner's specification: how the score decomposes
    over the rule categories, the order of the indicators, how many each
    category can contribute, the exact conditions of the subdomain,
    redirect and `@` rules, the level thresholds and the cache lifetime. */
module ScannerLemmas {
  import opened Text
  import opened Patterns
  import opened Rules
  import opened Scanner

  // ---------------------------------------------------------------------------
  // Weights

  /** The weight of a concatenation is the sum of the weights. */
  lemma {:induction false} TotalWeightAppend(a: seq<Threat>, b: seq<Threat>)
    ensures TotalWeight(a + b) == TotalWeight(a) + TotalWeight(b)
    decreases |b|
  {
    if b != [] {
      var b' := b[..|b| - 1];
      TotalWeightAppend(a, b');
      assert (a + b)[..|a + b| - 1] == a + b';
      assert (a + b)[|a + b| - 1] == b[|b| - 1];
    } else {
      assert a + b == a;
    }
  }

  predicate AllOfKind(ts: seq<Threat>, k: Kind)
  {
    forall i :: 0 <= i < |ts| ==> ts[i].kind == k
  }

  /** Indicators of one kind weigh that kind's weight each. */
  lemma {:induction false} TotalWeightOfKind(ts: seq<Threat>, k: Kind)
    requires AllOfKind(ts, k)
    ensures TotalWeight(ts) == Weight(k) * |ts|
    decreases |ts|
  {
    if ts != [] {
      TotalWeightOfKind(ts[..|ts| - 1], k);
    }
  }

  lemma AllOfKindFlag(fires: bool, t: Threat)
    ensures AllOfKind(Flag(fires, t), t.kind)
    ensures TotalWeight(Flag(fires, t)) == if fires then Weight(t.kind) else 0
  {
    if fires {
      TotalWeightPush([], t);
    }
  }

  // ---------------------------------------------------------------------------
  // What each list category contributes

  /** Every matching pattern pushes exactly one indicator of its kind, so
      there are at most as many as patterns. */
  lemma {:induction false} PatternThreatsKind(res: seq<Regex>, href: string)
    ensures AllOfKind(PatternThreats(res, href), SuspiciousPattern)
    ensures forall t :: t in PatternThreats(res, href) ==> t == PatternThreat
    ensures |PatternThreats(res, href)| <= |res|
    decreases |res|
  {
    if res != [] {
      PatternThreatsKind(res[..|res| - 1], href);
    }
  }

  /** No pattern indicator exactly when no pattern matches. */
  lemma {:induction false} PatternThreatsEmpty(res: seq<Regex>, href: string)
    ensures PatternThreats(res, href) == [] <==> forall k :: 0 <= k < |res| ==> !Test(href, res[k])
    decreases |res|
  {
    if res != [] {
      var init := res[..|res| - 1];
      PatternThreatsEmpty(init, href);
      assert forall k :: 0 <= k < |init| ==> init[k] == res[k];
    }
  }

  lemma {:induction false} TldThreatsKind(tlds: seq<string>, hostname: string)
    ensures AllOfKind(TldThreats(tlds, hostname), SuspiciousTld)
    ensures |TldThreats(tlds, hostname)| <= |tlds|
    decreases |tlds|
  {
    if tlds != [] {
      TldThreatsKind(tlds[..|tlds| - 1], hostname);
    }
  }

  /** A hostname gets one indicator per listed suffix it ends with, naming
      that suffix. */
  lemma {:induction false} TldThreatsMembers(tlds: seq<string>, hostname: string)
    ensures forall t :: t in TldThreats(tlds, hostname) ==>
      exists tld :: tld in tlds && EndsWith(hostname, tld) && t == TldThreat(tld)
    ensures forall tld :: tld in tlds && EndsWith(hostname, tld) ==> TldThreat(tld) in TldThreats(tlds, hostname)
    decreases |tlds|
  {
    if tlds != [] {
      var init := tlds[..|tlds| - 1];
      var last := tlds[|tlds| - 1];
      TldThreatsMembers(init, hostname);
      assert tlds == init + [last];
    }
  }

  lemma {:induction false} TldThreatsEmpty(tlds: seq<string>, hostname: string)
    ensures TldThreats(tlds, hostname) == [] <==> forall k :: 0 <= k < |tlds| ==> !EndsWith(hostname, tlds[k])
    decreases |tlds|
  {
    if tlds != [] {
      var init := tlds[..|tlds| - 1];
      TldThreatsEmpty(init, hostname);
      assert forall k :: 0 <= k < |init| ==> init[k] == tlds[k];
    }
  }

  /** Every brand look-alike found pushes exactly one indicator. */
  lemma {:induction false} TyposquatThreatsKind(res: seq<Regex>, hostname: string)
    ensures AllOfKind(TyposquatThreats(res, hostname), Typosquatting)
    ensures forall t :: t in TyposquatThreats(res, hostname) ==> t == TyposquatThreat
    ensures |TyposquatThreats(res, hostname)| <= |res|
    decreases |res|
  {
    if res != [] {
      TyposquatThreatsKind(res[..|res| - 1], hostname);
    }
  }

  lemma {:induction false} TyposquatThreatsEmpty(res: seq<Regex>, hostname: string)
    ensures TyposquatThreats(res, hostname) == [] <==> forall k :: 0 <= k < |res| ==> !Test(hostname, res[k])
    decreases |res|
  {
    if res != [] {
      var init := res[..|res| - 1];
      TyposquatThreatsEmpty(init, hostname);
      assert forall k :: 0 <= k < |init| ==> init[k] == res[k];
    }
  }

  lemma {:induction false} SubdomainThreatsKind(ls: seq<string>, labels: seq<string>, suspicious: seq<string>)
    ensures AllOfKind(SubdomainThreats(ls, labels, suspicious), SuspiciousSubdomain)
    ensures |SubdomainThreats(ls, labels, suspicious)| <= |ls|
    decreases |ls|
  {
    if ls != [] {
      SubdomainThreatsKind(ls[..|ls| - 1], labels, suspicious);
    }
  }

  /** Each suspicious label pushes one indicator naming it, and every
      indicator names a suspicious label. */
  lemma {:induction false} SubdomainThreatsMembers(ls: seq<string>, labels: seq<string>, suspicious: seq<string>)
    ensures forall t :: t in SubdomainThreats(ls, labels, suspicious) ==>
      exists l :: l in ls && IsSuspiciousLabel(l, labels, suspicious) && t == SubdomainThreat(l)
    ensures forall l :: l in ls && IsSuspiciousLabel(l, labels, suspicious) ==>
      SubdomainThreat(l) in SubdomainThreats(ls, labels, suspicious)
    decreases |ls|
  {
    if ls != [] {
      var init := ls[..|ls| - 1];
      var last := ls[|ls| - 1];
      SubdomainThreatsMembers(init, labels, suspicious);
      assert ls == init + [last];
    }
  }

  lemma {:induction false} SubdomainThreatsEmpty(ls: seq<string>, labels: seq<string>, suspicious: seq<string>)
    ensures SubdomainThreats(ls, labels, suspicious) == [] <==>
      forall k :: 0 <= k < |ls| ==> !IsSuspiciousLabel(ls[k], labels, suspicious)
    decreases |ls|
  {
    if ls != [] {
      var init := ls[..|ls| - 1];
      SubdomainThreatsEmpty(init, labels, suspicious);
      assert forall k :: 0 <= k < |init| ==> init[k] == ls[k];
    }
  }

  // ---------------------------------------------------------------------------
  // The whole score

  function Bonus(fires: bool, k: Kind): nat
  {
    if fires then Weight(k) else 0
  }

  /** The indicator list of a URL, assembled from its parts: the four list
      categories and the outcomes of the seven single rules. */
  function Assembled(p: seq<Threat>, tl: seq<Threat>, ty: seq<Threat>, sd: seq<Threat>,
                     b1: bool, b2: bool, b3: bool, b4: bool, b5: bool, b6: bool, b7: bool,
                     protocol: string): seq<Threat>
  {
    p + tl + ty + sd
    + Flag(b1, LongUrlThreat)
    + Flag(b2, IpThreat)
    + Flag(b3, ProtocolThreat(protocol))
    + Flag(b4, EmbeddedThreat)
    + Flag(b5, AtThreat)
    + Flag(b6, EncodedThreat)
    + Flag(b7, NoHttpsThreat)
  }

  lemma ThreatsAssembled(url: Url)
    ensures var labels := Split(url.hostname, '.');
      Threats(url) == Assembled(
        PatternThreats(SuspiciousPatterns, url.href),
        TldThreats(SuspiciousTlds, url.hostname),
        TyposquatThreats(TyposquatPatterns, url.hostname),
        SubdomainThreats(labels, labels, SuspiciousSubdomains),
        IsLongUrl(url.href), IsIpLiteral(url.hostname), IsDangerousProtocol(url.protocol),
        HasEmbeddedUrl(url.href), IsDeceptiveAt(url.href), HasEncodedByte(url.hostname),
        IsPlainHttp(url.protocol), url.protocol)
  {
  }

  /** The four list categories weigh their kind's weight per indicator. */
  lemma ListScore(p: seq<Threat>, tl: seq<Threat>, ty: seq<Threat>, sd: seq<Threat>)
    requires AllOfKind(p, SuspiciousPattern) && AllOfKind(tl, SuspiciousTld)
    requires AllOfKind(ty, Typosquatting) && AllOfKind(sd, SuspiciousSubdomain)
    ensures TotalWeight(p + tl + ty + sd) == 25 * |p| + 15 * |tl| + 50 * |ty| + 20 * |sd|
  {
    TotalWeightOfKind(p, SuspiciousPattern);
    TotalWeightOfKind(tl, SuspiciousTld);
    TotalWeightOfKind(ty, Typosquatting);
    TotalWeightOfKind(sd, SuspiciousSubdomain);
    TotalWeightAppend(p, tl);
    TotalWeightAppend(p + tl, ty);
    TotalWeightAppend(p + tl + ty, sd);
  }

  /** Appending the indicator of one single rule adds its bonus. */
  lemma FlagScore(ts: seq<Threat>, fires: bool, t: Threat)
    ensures TotalWeight(ts + Flag(fires, t)) == TotalWeight(ts) + Bonus(fires, t.kind)
  {
    AllOfKindFlag(fires, t);
    TotalWeightAppend(ts, Flag(fires, t));
  }

  lemma AssembledScore(p: seq<Threat>, tl: seq<Threat>, ty: seq<Threat>, sd: seq<Threat>,
                       b1: bool, b2: bool, b3: bool, b4: bool, b5: bool, b6: bool, b7: bool,
                       protocol: string)
    requires AllOfKind(p, SuspiciousPattern) && AllOfKind(tl, SuspiciousTld)
    requires AllOfKind(ty, Typosquatting) && AllOfKind(sd, SuspiciousSubdomain)
    ensures TotalWeight(Assembled(p, tl, ty, sd, b1, b2, b3, b4, b5, b6, b7, protocol)) ==
      25 * |p| + 15 * |tl| + 50 * |ty| + 20 * |sd|
      + Bonus(b1, LongUrl) + Bonus(b2, IpAddress) + Bonus(b3, DangerousProtocol)
      + Bonus(b4, EmbeddedUrl) + Bonus(b5, DeceptiveUrl) + Bonus(b6, EncodedDomain)
      + Bonus(b7, NoHttps)
  {
    ListScore(p, tl, ty, sd);
    var s3 := p + tl + ty + sd;
    var s4 := s3 + Flag(b1, LongUrlThreat);
    var s5 := s4 + Flag(b2, IpThreat);
    var s6 := s5 + Flag(b3, ProtocolThreat(protocol));
    var s7 := s6 + Flag(b4, EmbeddedThreat);
    var s8 := s7 + Flag(b5, AtThreat);
    var s9 := s8 + Flag(b6, EncodedThreat);
    FlagScore(s3, b1, LongUrlThreat);
    FlagScore(s4, b2, IpThreat);
    FlagScore(s5, b3, ProtocolThreat(protocol));
    FlagScore(s6, b4, EmbeddedThreat);
    FlagScore(s7, b5, AtThreat);
    FlagScore(s8, b6, EncodedThreat);
    FlagScore(s9, b7, NoHttpsThreat);
  }

  /** The score outside the allowlist: 25 per matching pattern, 15 per TLD,
      50 per brand look-alike, 20 per suspicious label, and the fixed weight
      of each single rule that fires. */
  lemma ScoreByCategory(url: Url)
    ensures var labels := Split(url.hostname, '.');
      TotalWeight(Threats(url)) ==
        25 * |PatternThreats(SuspiciousPatterns, url.href)|
      + 15 * |TldThreats(SuspiciousTlds, url.hostname)|
      + 50 * |TyposquatThreats(TyposquatPatterns, url.hostname)|
      + 20 * |SubdomainThreats(labels, labels, SuspiciousSubdomains)|
      + Bonus(IsLongUrl(url.href), LongUrl)
      + Bonus(IsIpLiteral(url.hostname), IpAddress)
      + Bonus(IsDangerousProtocol(url.protocol), DangerousProtocol)
      + Bonus(HasEmbeddedUrl(url.href), EmbeddedUrl)
      + Bonus(IsDeceptiveAt(url.href), DeceptiveUrl)
      + Bonus(HasEncodedByte(url.hostname), EncodedDomain)
      + Bonus(IsPlainHttp(url.protocol), NoHttps)
  {
    var labels := Split(url.hostname, '.');
    PatternThreatsKind(SuspiciousPatterns, url.href);
    TldThreatsKind(SuspiciousTlds, url.hostname);
    TyposquatThreatsKind(TyposquatPatterns, url.hostname);
    SubdomainThreatsKind(labels, labels, SuspiciousSubdomains);
    ThreatsAssembled(url);
    AssembledScore(
      PatternThreats(SuspiciousPatterns, url.href),
      TldThreats(SuspiciousTlds, url.hostname),
      TyposquatThreats(TyposquatPatterns, url.hostname),
      SubdomainThreats(labels, labels, SuspiciousSubdomains),
      IsLongUrl(url.href), IsIpLiteral(url.hostname), IsDangerousProtocol(url.protocol),
      HasEmbeddedUrl(url.href), IsDeceptiveAt(url.href), HasEncodedByte(url.hostname),
      IsPlainHttp(url.protocol), url.protocol);
  }

  /** The score of every result is the sum of its indicators' weights,
      and so never negative; the level is the score's. */
  lemma EvaluateScore(url: Url)
    ensures Evaluate(url).score == TotalWeight(Evaluate(url).threats) >= 0
    ensures Evaluate(url).threatLevel == LevelOf(Evaluate(url).score)
  {
  }

  // ---------------------------------------------------------------------------
  // Category order

  /** The indicators' categories never decrease along the list. */
  predicate Ranked(ts: seq<Threat>)
  {
    forall i, j :: 0 <= i < j < |ts| ==> Rank(ts[i].kind) <= Rank(ts[j].kind)
  }

  predicate RankedUpTo(ts: seq<Threat>, r: nat)
  {
    Ranked(ts) && forall i :: 0 <= i < |ts| ==> Rank(ts[i].kind) <= r
  }

  lemma {:induction false} RankedAppend(a: seq<Threat>, r: nat, b: seq<Threat>, k: Kind)
    requires RankedUpTo(a, r) && r <= Rank(k) && AllOfKind(b, k)
    ensures RankedUpTo(a + b, Rank(k))
  {
    var ab := a + b;
    forall i, j | 0 <= i < j < |ab| ensures Rank(ab[i].kind) <= Rank(ab[j].kind) {
      if j < |a| {
        assert ab[i] == a[i] && ab[j] == a[j];
      } else if i < |a| {
        assert ab[i] == a[i] && ab[j] == b[j - |a|];
      } else {
        assert ab[i] == b[i - |a|] && ab[j] == b[j - |a|];
      }
    }
    forall i | 0 <= i < |ab| ensures Rank(ab[i].kind) <= Rank(k) {
      if i < |a| {
        assert ab[i] == a[i];
      } else {
        assert ab[i] == b[i - |a|];
      }
    }
  }

  lemma AssembledRanked(p: seq<Threat>, tl: seq<Threat>, ty: seq<Threat>, sd: seq<Threat>,
                        b1: bool, b2: bool, b3: bool, b4: bool, b5: bool, b6: bool, b7: bool,
                        protocol: string)
    requires AllOfKind(p, SuspiciousPattern) && AllOfKind(tl, SuspiciousTld)
    requires AllOfKind(ty, Typosquatting) && AllOfKind(sd, SuspiciousSubdomain)
    ensures Ranked(Assembled(p, tl, ty, sd, b1, b2, b3, b4, b5, b6, b7, protocol))
  {
    var f1, f2, f3, f4 := Flag(b1, LongUrlThreat), Flag(b2, IpThreat), Flag(b3, ProtocolThreat(protocol)), Flag(b4, EmbeddedThreat);
    var f5, f6, f7 := Flag(b5, AtThreat), Flag(b6, EncodedThreat), Flag(b7, NoHttpsThreat);
    AllOfKindFlag(b1, LongUrlThreat);
    AllOfKindFlag(b2, IpThreat);
    AllOfKindFlag(b3, ProtocolThreat(protocol));
    AllOfKindFlag(b4, EmbeddedThreat);
    AllOfKindFlag(b5, AtThreat);
    AllOfKindFlag(b6, EncodedThreat);
    AllOfKindFlag(b7, NoHttpsThreat);
    RankedAppend([], 0, p, SuspiciousPattern);
    assert [] + p == p;
    RankedAppend(p, 0, tl, SuspiciousTld);
    var s1 := p + tl;
    RankedAppend(s1, 1, ty, Typosquatting);
    var s2 := s1 + ty;
    RankedAppend(s2, 2, sd, SuspiciousSubdomain);
    var s3 := s2 + sd;
    RankedAppend(s3, 3, f1, LongUrl);
    var s4 := s3 + f1;
    RankedAppend(s4, 4, f2, IpAddress);
    var s5 := s4 + f2;
    RankedAppend(s5, 5, f3, DangerousProtocol);
    var s6 := s5 + f3;
    RankedAppend(s6, 6, f4, EmbeddedUrl);
    var s7 := s6 + f4;
    RankedAppend(s7, 7, f5, DeceptiveUrl);
    var s8 := s7 + f5;
    RankedAppend(s8, 8, f6, EncodedDomain);
    var s9 := s8 + f6;
    RankedAppend(s9, 9, f7, NoHttps);
  }

  /** The indicators appear category by category, in the order the rules
      are evaluated: patterns, TLDs, typosquatting, subdomains, length, IP
      address, protocol, embedded URL, `@`, encoding, plain HTTP. */
  lemma ThreatsInCategoryOrder(url: Url)
    ensures Ranked(Threats(url))
    ensures Ranked(Evaluate(url).threats)
  {
    var labels := Split(url.hostname, '.');
    PatternThreatsKind(SuspiciousPatterns, url.href);
    TldThreatsKind(SuspiciousTlds, url.hostname);
    TyposquatThreatsKind(TyposquatPatterns, url.hostname);
    SubdomainThreatsKind(labels, labels, SuspiciousSubdomains);
    ThreatsAssembled(url);
    AssembledRanked(
      PatternThreats(SuspiciousPatterns, url.href),
      TldThreats(SuspiciousTlds, url.hostname),
      TyposquatThreats(TyposquatPatterns, url.hostname),
      SubdomainThreats(labels, labels, SuspiciousSubdomains),
      IsLongUrl(url.href), IsIpLiteral(url.hostname), IsDangerousProtocol(url.protocol),
      HasEmbeddedUrl(url.href), IsDeceptiveAt(url.href), HasEncodedByte(url.hostname),
      IsPlainHttp(url.protocol), url.protocol);
  }

  // ---------------------------------------------------------------------------
  // Bounds per category

  /** The last two characters of every listed TLD differ from those of
      every other, so no hostname ends with two of them. */
  predicate DistinctEndings(tlds: seq<string>)
  {
    (forall k :: 0 <= k < |tlds| ==> |tlds[k]| >= 2) &&
    forall i, j :: 0 <= i < j < |tlds| ==> tlds[i][|tlds[i]| - 2..] != tlds[j][|tlds[j]| - 2..]
  }

  lemma EndsWithEnding(hostname: string, tld: string)
    requires |tld| >= 2 && EndsWith(hostname, tld)
    ensures hostname[|hostname| - 2..] == tld[|tld| - 2..]
  {
    var d := |hostname| - |tld|;
    assert forall m :: 0 <= m < |tld| ==> hostname[d + m] == tld[m];
  }

  lemma {:induction false} TldAtMostOneGeneral(tlds: seq<string>, hostname: string)
    requires DistinctEndings(tlds)
    ensures |TldThreats(tlds, hostname)| <= 1
    ensures |TldThreats(tlds, hostname)| == 1 ==> exists k :: 0 <= k < |tlds| && EndsWith(hostname, tlds[k])
    decreases |tlds|
  {
    if tlds != [] {
      var init := tlds[..|tlds| - 1];
      var n := |tlds| - 1;
      assert forall k :: 0 <= k < |init| ==> init[k] == tlds[k];
      assert DistinctEndings(init);
      TldAtMostOneGeneral(init, hostname);
      if EndsWith(hostname, tlds[n]) && |TldThreats(init, hostname)| == 1 {
        var k :| 0 <= k < |init| && EndsWith(hostname, init[k]);
        EndsWithEnding(hostname, tlds[n]);
        EndsWithEnding(hostname, tlds[k]);
        assert false;
      }
    }
  }

  lemma SuspiciousTldsDistinct()
    ensures DistinctEndings(SuspiciousTlds)
  {
    var t := SuspiciousTlds;
    assert t[0][|t[0]| - 2..] == "tk";
    assert t[1][|t[1]| - 2..] == "ml";
    assert t[2][|t[2]| - 2..] == "ga";
    assert t[3][|t[3]| - 2..] == "cf";
    assert t[4][|t[4]| - 2..] == "gq";
    assert t[5][|t[5]| - 2..] == "yz";
    assert t[6][|t[6]| - 2..] == "op";
    assert t[7][|t[7]| - 2..] == "rk";
    assert t[8][|t[8]| - 2..] == "ck";
    assert t[9][|t[9]| - 2..] == "nk";
  }

  /** How many indicators each list category can push: at most one per
      pattern (the patterns are not global, so each tests once), at most
      one TLD indicator, and at most one per hostname label. */
  lemma CategoryBounds(url: Url)
    ensures |PatternThreats(SuspiciousPatterns, url.href)| <= 11
    ensures |TldThreats(SuspiciousTlds, url.hostname)| <= 1
    ensures |TyposquatThreats(TyposquatPatterns, url.hostname)| <= 7
    ensures var labels := Split(url.hostname, '.');
      |SubdomainThreats(labels, labels, SuspiciousSubdomains)| <= |labels|
  {
    var labels := Split(url.hostname, '.');
    PatternThreatsKind(SuspiciousPatterns, url.href);
    TyposquatThreatsKind(TyposquatPatterns, url.hostname);
    SubdomainThreatsKind(labels, labels, SuspiciousSubdomains);
    SuspiciousTldsDistinct();
    TldAtMostOneGeneral(SuspiciousTlds, url.hostname);
  }

  // ---------------------------------------------------------------------------
  // The subdomain rule

  /** Different labels give different indicators. */
  lemma SubdomainThreatInjective(a: string, b: string)
    requires SubdomainThreat(a) == SubdomainThreat(b)
    ensures a == b
  {
    var d := SubdomainThreat(a).description;
    assert a == d[21..|d| - 10];
    assert b == d[21..|d| - 10];
  }

  /** No label whose text is that of the second-to-last label is ever
      flagged, wherever it stands in the hostname. */
  lemma RegistrableLabelNeverFlagged(hostname: string)
    ensures var labels := Split(hostname, '.');
      |labels| >= 2 ==>
        SubdomainThreat(labels[|labels| - 2]) !in SubdomainThreats(labels, labels, SuspiciousSubdomains)
  {
    var labels := Split(hostname, '.');
    SubdomainThreatsMembers(labels, labels, SuspiciousSubdomains);
    if |labels| >= 2 && SubdomainThreat(labels[|labels| - 2]) in SubdomainThreats(labels, labels, SuspiciousSubdomains) {
      var l :| l in labels && IsSuspiciousLabel(l, labels, SuspiciousSubdomains) && SubdomainThreat(labels[|labels| - 2]) == SubdomainThreat(l);
      SubdomainThreatInjective(labels[|labels| - 2], l);
      assert false;
    }
  }

  /** A hostname without a dot is a single label and nothing is excluded:
      it is flagged exactly when it is on the list. */
  lemma SingleLabelHostname(hostname: string)
    requires '.' !in hostname
    ensures var labels := Split(hostname, '.');
      SubdomainThreats(labels, labels, SuspiciousSubdomains) ==
        Flag(Lower(hostname) in SuspiciousSubdomains, SubdomainThreat(hostname))
  {
    SplitNoSep(hostname, '.');
    var labels := [hostname];
    assert labels[..0] == [];
  }

  // ---------------------------------------------------------------------------
  // The redirect and `@` rules

  /** The embedded-URL rule fires exactly when "http" occurs, in any case,
      at two different places of the URL. */
  lemma EmbeddedIff(href: string)
    ensures HasEmbeddedUrl(href) <==>
      exists p, q :: 0 <= p < q && OccursAt(href, "http", p) && OccursAt(href, "http", q)
  {
    HttpCountIff(href);
  }

  /** The `@` rule fires exactly when the URL holds an `@` and is not a
      `mailto:` link. */
  lemma DeceptiveIff(href: string)
    ensures IsDeceptiveAt(href) <==>
      (exists i :: 0 <= i < |href| && href[i] == '@') && !(|href| >= 7 && href[..7] == "mailto:")
  {
  }

  // ---------------------------------------------------------------------------
  // Classification

  /** A higher score never gives a lower level. */
  lemma LevelMonotone(a: int, b: int)
    requires a <= b
    ensures Order(LevelOf(a)) <= Order(LevelOf(b))
  {
  }

  /** The thresholds, at both sides of each boundary. */
  lemma LevelBoundaries()
    ensures LevelOf(0) == Level.Safe && LevelOf(1) == Level.Low
    ensures LevelOf(24) == Level.Low && LevelOf(25) == Level.Medium
    ensures LevelOf(49) == Level.Medium && LevelOf(50) == Level.High
    ensures LevelOf(74) == Level.High && LevelOf(75) == Level.Critical
  {
  }

  /** Outside the allowlist a zero score has the clear verdict, which is
      not the allowlist's verdict. */
  lemma ZeroScoreVerdict(url: Url)
    requires !IsAllowlisted(url.hostname) && Evaluate(url).score == 0
    ensures Evaluate(url).threatLevel == Level.Safe
    ensures Evaluate(url).prediction == Prediction(Level.Safe) != AllowlistPrediction
  {
    assert Prediction(Level.Safe)[23] != AllowlistPrediction[23];
  }

  // ---------------------------------------------------------------------------
  // The cache

  /** An entry written at time `t` is served while less than five minutes
      have passed and not from then on; other URLs are unaffected. */
  lemma CacheLifetime(cache: map<string, CacheEntry>, href: string, r: ScanResult, t: int, now: int)
    ensures Lookup(cache[href := CacheEntry(r, t)], href, now) == if now - t < 300000 then Some(r) else None
    ensures forall h :: h != href ==> Lookup(cache[href := CacheEntry(r, t)], h, now) == Lookup(cache, h, now)
  {
  }
}
