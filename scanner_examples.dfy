/** Worked examples of the scanner's rules on concrete URLs. */
module ScannerExamples {
  import opened Text
  import opened Patterns
  import opened Rules
  import opened Scanner
  import opened ScannerLemmas

  /** The labels of a two-label hostname. */
  lemma TwoLabels(a: string, b: string)
    requires '.' !in a && '.' !in b
    ensures Split(a + "." + b, '.') == [a, b]
  {
    SplitAt(a, '.', b);
    SplitNoSep(b, '.');
  }

  /** The labels of a three-label hostname. */
  lemma ThreeLabels(a: string, b: string, c: string)
    requires '.' !in a && '.' !in b && '.' !in c
    ensures Split(a + "." + b + "." + c, '.') == [a, b, c]
  {
    assert a + "." + b + "." + c == a + ['.'] + (b + "." + c);
    SplitAt(a, '.', b + "." + c);
    TwoLabels(b, c);
  }

  /** The root domain of a hostname whose labels are known. */
  lemma RootOfLabels(hostname: string, a: string, b: string)
    requires '.' in hostname && '.' !in a && '.' !in b
    requires var labels := Split(hostname, '.'); |labels| >= 2 && labels[|labels| - 2..] == [a, b]
    ensures ExtractRootDomain(hostname) == a + "." + b
  {
    var r := ExtractRootDomain(hostname);
    JoinSplit(r, '.');
    assert Split(r, '.') == [a, b];
  }

  /** `secure.secure.com`: the text of both leading labels equals that of
      the second-to-last label, so neither is flagged. */
  lemma SameTextAsRegistrableLabel()
    ensures var labels := Split("secure.secure.com", '.');
      SubdomainThreats(labels, labels, SuspiciousSubdomains) == []
  {
    ThreeLabels("secure", "secure", "com");
    var labels := ["secure", "secure", "com"];
    assert "secure.secure.com" == "secure" + "." + "secure" + "." + "com";
    LowerNoUpper("com");
    assert IsRegistrableLabel("secure", labels);
    assert "com" !in SuspiciousSubdomains;
    forall k | 0 <= k < |labels| ensures !IsSuspiciousLabel(labels[k], labels, SuspiciousSubdomains) {
      if k == 2 {
        assert labels[k] == "com";
      } else {
        assert labels[k] == "secure";
      }
    }
    SubdomainThreatsEmpty(labels, labels, SuspiciousSubdomains);
  }

  /** The subdomain indicators of a three-label hostname, label by label. */
  lemma ThreeLabelThreats(labels: seq<string>)
    requires |labels| == 3
    ensures SubdomainThreats(labels, labels, SuspiciousSubdomains) ==
      Flag(IsSuspiciousLabel(labels[0], labels, SuspiciousSubdomains), SubdomainThreat(labels[0]))
      + Flag(IsSuspiciousLabel(labels[1], labels, SuspiciousSubdomains), SubdomainThreat(labels[1]))
      + Flag(IsSuspiciousLabel(labels[2], labels, SuspiciousSubdomains), SubdomainThreat(labels[2]))
  {
    var S := SuspiciousSubdomains;
    var f0 := Flag(IsSuspiciousLabel(labels[0], labels, S), SubdomainThreat(labels[0]));
    var f1 := Flag(IsSuspiciousLabel(labels[1], labels, S), SubdomainThreat(labels[1]));
    var f2 := Flag(IsSuspiciousLabel(labels[2], labels, S), SubdomainThreat(labels[2]));
    var l1, l2 := labels[..1], labels[..2];
    assert l1[..0] == [] && l2[..1] == l1 && labels[..2] == l2;
    assert SubdomainThreats(l1, labels, S) == [] + f0 == f0;
    assert SubdomainThreats(l2, labels, S) == f0 + f1;
  }

  /** The labels of `secure.example.com`. */
  lemma LeadingLabelFlags(labels: seq<string>)
    requires labels == ["secure", "example", "com"]
    ensures IsSuspiciousLabel(labels[0], labels, SuspiciousSubdomains)
    ensures !IsSuspiciousLabel(labels[1], labels, SuspiciousSubdomains)
    ensures !IsSuspiciousLabel(labels[2], labels, SuspiciousSubdomains)
  {
    LowerNoUpper("secure");
    LowerNoUpper("example");
    LowerNoUpper("com");
  }

  /** `secure.example.com`: the leading label is on the list and differs
      from the second-to-last label, so it is flagged, once. */
  lemma SuspiciousLeadingLabel()
    ensures var labels := Split("secure.example.com", '.');
      SubdomainThreats(labels, labels, SuspiciousSubdomains) == [SubdomainThreat("secure")]
  {
    ThreeLabels("secure", "example", "com");
    var labels := ["secure", "example", "com"];
    assert "secure.example.com" == "secure" + "." + "example" + "." + "com";
    LeadingLabelFlags(labels);
    ThreeLabelThreats(labels);
  }

  /** A one-label hostname has no second-to-last label: a listed label is
      flagged. */
  lemma SingleSuspiciousLabel()
    ensures var labels := Split("secure", '.');
      SubdomainThreats(labels, labels, SuspiciousSubdomains) == [SubdomainThreat("secure")]
  {
    SingleLabelHostname("secure");
    LowerNoUpper("secure");
  }
}
