/** The scanner's rule set: the `THREAT_PATTERNS` and `SAFE_DOMAINS` data
    of the background worker, with every regular expression written as a
    `Patterns.Regex` (lower case, matched case-insensitively). */
module Rules {
  import opened Patterns

  /** Eleven patterns tested against the whole URL; `-?` is an optional hyphen. */
  const SuspiciousPatterns: seq<Regex> := [
    [Lit("phishing")],
    [Lit("malware")],
    [Lit("hack")],
    [Lit("crack")],
    [Lit("warez")],
    [Lit("free"), Opt('-'), Lit("money")],
    [Lit("you"), Opt('-'), Lit("won")],
    [Lit("claim"), Opt('-'), Lit("prize")],
    [Lit("urgent"), Opt('-'), Lit("action")],
    [Lit("account"), Opt('-'), Lit("suspended")],
    [Lit("verify"), Opt('-'), Lit("immediately")]
  ]

  /** Hostname suffixes, tested with a case-sensitive `endsWith`. */
  const SuspiciousTlds: seq<string> :=
    [".tk", ".ml", ".ga", ".cf", ".gq", ".xyz", ".top", ".work", ".click", ".link"]

  /** Brand look-alikes tested against the hostname; `[o0]{2}` is the class twice. */
  const TyposquatPatterns: seq<Regex> := [
    [Lit("g"), AnyOf({'o', '0'}), AnyOf({'o', '0'}), Lit("gle")],
    [Lit("fac"), AnyOf({'e', '3'}), Lit("b"), AnyOf({'o', '0'}), AnyOf({'o', '0'}), Lit("k")],
    [Lit("amaz"), AnyOf({'o', '0'}), Lit("n")],
    [Lit("micr"), AnyOf({'o', '0'}), Lit("s"), AnyOf({'o', '0'}), Lit("ft")],
    [Lit("app"), AnyOf({'l', '1'}), Lit("e")],
    [Lit("paypa"), AnyOf({'l', '1'})],
    [Lit("netf"), AnyOf({'l', '1'}), Lit("ix")]
  ]

  /** Hostname labels that suggest a credential-harvesting page. */
  const SuspiciousSubdomains: seq<string> :=
    ["login", "signin", "secure", "account", "verify", "update", "confirm",
     "banking", "wallet", "payment"]

  /** Root domains that are never scanned. */
  const SafeDomains: set<string> := {
    "google.com", "youtube.com", "facebook.com", "amazon.com", "microsoft.com",
    "apple.com", "github.com", "stackoverflow.com", "wikipedia.org", "twitter.com",
    "linkedin.com", "instagram.com", "netflix.com", "paypal.com", "stripe.com",
    "cloudflare.com", "anthropic.com", "openai.com", "provideo.services",
    "psychicsight.com", "videgrow.org", "claude.ai", "x.com", "reddit.com"
  }

  /** How long a cached scan result stays fresh, in milliseconds (5 minutes). */
  const CacheDuration: int := 5 * 60 * 1000

  /** `/%[0-9a-f]{2}/i`: a percent sign followed by two hex digits. */
  const HexDigits: set<char> :=
    {'0', '1', '2', '3', '4', '5', '6', '7', '8', '9', 'a', 'b', 'c', 'd', 'e', 'f'}
  const EncodedByte: Regex := [Lit("%"), AnyOf(HexDigits), AnyOf(HexDigits)]

  /** URLs longer than this many characters are flagged. */
  const MaxUrlLength: nat := 200
}
