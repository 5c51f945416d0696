# Psychic Sight URL threat scorer in Dafny

This project models the background worker of the Psychic Sight browser extension, together with the popup's display helpers, and proves properties of the model.

The worker scores every top-level navigation. A parsed URL (`href`, `protocol`, `hostname`) goes through the following steps:

- a five-minute result cache, keyed by `href`;
- then an allowlist of root domains;
- then eleven rule categories, evaluated in a fixed order;
- a rule that fires pushes one threat indicator and adds a fixed weight to the score.

The total score is then mapped to a level (safe, low, medium, high, critical) and a verdict text. Results at level high or critical are blocked and logged. The log is bounded and newest first. Counters record how many scans were made and how many were blocked.

Modules:

- `Text` models the JavaScript string built-ins the rules use: ASCII `toLowerCase`, `split`/`join` on a one-character separator, `startsWith` and `endsWith`.
- `Patterns` models the fragment of case-insensitive regular expressions the rules use, and the global match count of `/http/gi`.
- `Rules` holds the rule data: the suspicious patterns, TLDs, typosquat patterns and subdomain labels, the safe domains, the cache lifetime, and the URL length bound.
- `Scanner` holds the scorer:
  - `Evaluate` is the specification, built from one function per category.
  - `Scan` computes the same result the way the worker does, with one loop per listed category and a running score.
  - The class `Analyzer` holds the cache in front of it.
- `ScannerLemmas` proves the following about the scorer:
  - the score is the sum of the category weights;
  - indicators appear in category order;
  - each category has a bound on how many indicators it adds;
  - the subdomain rule skips the second-to-last label;
  - the level boundaries hold;
  - verdicts differ between the zero-score case and the allowlist case;
  - cache entries expire after five minutes.
- `ScannerExamples` works through concrete subdomain examples.
- `Extension` holds the block decision and the bounded log. The class `Storage` holds the stored values (`enabled`, `threatLog`, the counters) and the navigation listener.
- `Popup` holds `formatTime`, the truncation rule of `truncateUrl`, and the choice of entries in `displayRecentThreats`.

The subdomain rule skips a label when its text equals the text of the hostname's second-to-last label (`background.js:163`). This is a comparison of values, not of positions. So in `secure.secure.com` neither `secure` label is flagged, although the first one is a subdomain, while in `secure.example.com` the label `secure` is flagged.

## Model

| member | source | states |
|---|---|---|
| Scanner.ExtractRootDomain | background.js:269-275 | The result is a suffix of the hostname. Without a dot it is the hostname itself. Otherwise it splits into exactly the last two labels. |
| Text.JoinSplit | background.js:270-272 | Joining the parts of a `split` on `.` gives back the hostname. |
| Text.SplitJoin | background.js:272 | Splitting a join of dot-free labels gives back the labels. |
| ScannerExamples.RootOfLabels | background.js:269-275 | A hostname whose last two labels are `a` and `b` has root domain `a.b`. |
| Scanner.Evaluate | background.js:116-121 | The result is well formed (its score is the sum of its weights, and its level is the score's level). An allowlisted root domain gives level safe, score 0, no indicators and the allowlist verdict. Any other URL gives the indicators of all categories in order, and the verdict of its level. |
| Scanner.Scan | background.js:113-266 | The worker's imperative evaluation (allowlist check, one loop per listed category, the seven single rules, classification) returns exactly `Evaluate(url)`. |
| Scanner.TagInjective | background.js:127-238 | The eleven `type` strings are pairwise distinct, so an indicator's `type` identifies the rule that pushed it. |
| Scanner.PushWhen | background.js:175-182 | A rule that fires appends its indicator and adds its weight. A rule that does not fire changes nothing. The score stays the total weight of the list. |
| Scanner.PushPatternThreats | background.js:124-133 | The pattern loop appends one indicator per pattern that matches `href`, in list order, and keeps the score equal to the total weight. |
| Scanner.PushTldThreats | background.js:136-145 | The TLD loop appends one indicator, naming the suffix, per listed suffix the hostname ends with. |
| Scanner.PushTyposquatThreats | background.js:148-157 | The typosquat loop appends one indicator per look-alike pattern found in the hostname. |
| Scanner.PushSubdomainThreats | background.js:159-172 | The label loop appends one indicator per label that is on the list and does not have the text of the second-to-last label. |
| Scanner.PushSingleThreats | background.js:174-243 | The seven single-test rules append their indicators in source order. The score stays the total weight. |
| Scanner.LevelOf | background.js:246-261 | Safe iff score ≤ 0, low iff 0 < score < 25, medium iff 25 ≤ score < 50, high iff 50 ≤ score < 75, critical iff score ≥ 75. |
| ScannerLemmas.LevelBoundaries | background.js:249-261 | 0 is safe, 1 and 24 are low, 25 and 49 are medium, 50 and 74 are high, 75 is critical. |
| ScannerLemmas.LevelMonotone | background.js:249-261 | A higher score never gives a lower level. |
| ScannerLemmas.ZeroScoreVerdict | background.js:118 | A scanned URL with score 0 is safe. Its verdict is the zero-score text, which differs from the allowlist verdict. |
| ScannerLemmas.TotalWeightAppend | background.js:131 | The total weight of a concatenation is the sum of the totals. |
| ScannerLemmas.ScoreByCategory | background.js:124-243 | The score of a scanned URL is 25·patterns + 15·TLDs + 50·typosquats + 20·labels, plus 10, 30, 60, 25, 40, 25 and 10 for each single rule that fires. |
| ScannerLemmas.EvaluateScore | background.js:263 | Every result's score is the non-negative total weight of its indicators, and its level is that score's level. |
| ScannerLemmas.ThreatsInCategoryOrder | background.js:123-243 | Indicators appear in the order of the categories: pattern, TLD, typosquat, subdomain, long, IP, protocol, embedded, `@`, encoded, http. |
| ScannerLemmas.PatternThreatsKind | background.js:124-133 | Pattern indicators are all the same indicator, at most one per pattern. |
| ScannerLemmas.PatternThreatsEmpty | background.js:124-125 | There are no pattern indicators iff no pattern matches `href`. |
| ScannerLemmas.TldThreatsKind | background.js:136-145 | TLD indicators are all of the TLD kind, at most one per listed suffix. |
| ScannerLemmas.TldThreatsMembers | background.js:136-144 | An indicator names a listed suffix the hostname ends with. Every such suffix is named. |
| ScannerLemmas.TldThreatsEmpty | background.js:136-137 | There are no TLD indicators iff the hostname ends with none of the suffixes. |
| ScannerLemmas.TldAtMostOneGeneral | background.js:136-145 | Suffixes whose last two characters are pairwise distinct give at most one indicator, and only for a suffix the hostname ends with. |
| ScannerLemmas.SuspiciousTldsDistinct | background.js:21 | The ten listed TLDs end in pairwise distinct character pairs. |
| ScannerLemmas.TyposquatThreatsKind | background.js:148-157 | Typosquat indicators are all the same indicator, at most one per pattern. |
| ScannerLemmas.TyposquatThreatsEmpty | background.js:148-149 | There are no typosquat indicators iff no look-alike pattern matches the hostname. |
| ScannerLemmas.CategoryBounds | background.js:124-172 | At most 11 pattern indicators, at most one TLD indicator, at most 7 typosquat indicators, and at most one subdomain indicator per label. |
| ScannerLemmas.SubdomainThreatsKind | background.js:160-172 | Subdomain indicators are all of the subdomain kind, at most one per label. |
| ScannerLemmas.SubdomainThreatsMembers | background.js:161-170 | Every indicator names a suspicious label that is not excluded. Every such label is named. |
| ScannerLemmas.SubdomainThreatsEmpty | background.js:161-163 | There are no subdomain indicators iff no label is both on the list and not excluded. |
| ScannerLemmas.RegistrableLabelNeverFlagged | background.js:163 | With two or more labels, the second-to-last label is never flagged. |
| ScannerLemmas.SingleLabelHostname | background.js:160-172 | A one-label hostname is flagged exactly when its lower case is on the list. Nothing is excluded. |
| ScannerExamples.SameTextAsRegistrableLabel | background.js:163 | In `secure.secure.com`, neither `secure` label is flagged, because both have the text of the second-to-last label. |
| ScannerExamples.SuspiciousLeadingLabel | background.js:160-172 | In `secure.example.com`, the single indicator is the one for the label `secure`. |
| ScannerExamples.SingleSuspiciousLabel | background.js:160-172 | The one-label hostname `secure` is flagged with its own indicator. |
| Patterns.SearchFromIff | background.js:125 | A non-global `test` succeeds iff the pattern matches at some start position. |
| Patterns.LitAtIff | background.js:7-11 | A literal run matches at a position iff it fits there and every character matches, ignoring case. |
| Patterns.CountFromPositive | background.js:206 | The global match count is positive iff the word occurs somewhere. |
| Patterns.CountFromTwo | background.js:206 | The global match count is at least two iff the word occurs twice without overlap. |
| Patterns.HttpCountIff | background.js:206 | `/http/gi` matches more than once iff "http" occurs at two different positions. |
| ScannerLemmas.EmbeddedIff | background.js:206-213 | The embedded-redirect rule fires iff "http" occurs, in any case, at two different positions of `href`. |
| ScannerLemmas.DeceptiveIff | background.js:216-223 | The `@` rule fires iff `href` holds an `@` and does not start with `mailto:`. |
| Scanner.Lookup | background.js:108-110 | A cached result is returned iff an entry exists for `href` and `now − timestamp < 300000`, and it is that entry's result. |
| ScannerLemmas.CacheLifetime | background.js:51 | An entry stored at time `t` is served iff `now − t < 300000`. Storing it changes no other key's lookup. |
| Scanner.CacheValidStore | background.js:119 | Storing a fresh scan keeps every cached result the scan of a URL with that `href`. |
| Scanner.CacheValidHit | background.js:108-110 | A cached result is the scan of a URL with the requested `href`, and is well formed. |
| Scanner.Analyzer.constructor | background.js:50 | The cache starts empty. |
| Scanner.Analyzer.AnalyzeUrl | background.js:105-121 | A fresh hit returns the cached result and leaves the cache alone. A miss returns `Evaluate(url)`, the allowlist result included, and stores it under `href` with timestamp `now`. |
| Extension.BlockIffScore | background.js:93 | A level is blocked iff its score is at least 50. |
| Extension.BlockedScans | background.js:93 | A result is blocked iff its score is at least 50. An allowlisted URL is never blocked. |
| Extension.Logged | background.js:281-289 | The new entry comes first and the old log follows in order. The log grows by one up to 100 entries, and beyond that the oldest entry is dropped. |
| Extension.LoggedBounded | background.js:289 | Logging keeps a log of at most 100 entries within 100. |
| Extension.ReplayNewest | background.js:281-289 | Logged from empty, the log is the newest 100 entries, newest first. |
| Extension.Storage.constructor | background.js:54-64 | Install defaults: enabled, empty log, all counters zero. |
| Extension.Storage.LogThreat | background.js:277-295 | The log becomes `Logged(old log, entry)` with timestamp `now`. `threatsBlocked` grows by exactly one. Nothing else changes. |
| Extension.Storage.IncrementScanCount | background.js:297-303 | `totalScans` and `dailyScans` each grow by one. Nothing else changes. |
| Extension.Storage.ToggleEnabled | background.js:317-324 | The switch flips, and the reply is the new state. Nothing else changes. |
| Extension.Storage.OnBeforeNavigate | background.js:79-102 | A navigation is skipped iff it is a sub-frame, the extension is off, or the protocol is `chrome:` or `chrome-extension:`; then nothing changes. Otherwise it is scanned through the cache: a fresh entry for `href` is returned and the cache is unchanged, and on a miss the result is `Evaluate(url)`, stored under `href` with timestamp `now`. Both scan counters grow by one. The navigation is blocked and logged exactly at level high or critical. |
| Popup.NatToString | popup.js:117-119 | The count is written as a non-empty string of decimal digits. Zero is "0", and otherwise there is no leading zero, as `toString` writes it. |
| Popup.DecimalRoundTrip | popup.js:117-119 | A number's decimal text reads back as the number. |
| Popup.ElapsedOf | popup.js:112-120 | Under a minute, including a negative difference, is just now. Minutes, hours and days are chosen by the same thresholds. The count `n` satisfies `n·unit ≤ diff < (n+1)·unit`, with 1..59 minutes, 1..23 hours and at least 1 day. |
| Popup.JustNowIff | popup.js:116 | "Just now" is shown iff `now − timestamp < 60000`. |
| Popup.AgoText | popup.js:117-119 | Every other text is a numeral, the unit letter and " ago", and the numeral's value is the whole number of units. |
| Popup.Truncate | popup.js:106 | At most 38 characters. A string of at most 35 characters is unchanged. A longer one becomes its first 35 characters followed by "...". |
| Popup.TruncateUrl | popup.js:102-110 | The text shortened is hostname plus pathname when the URL parses, and the raw URL otherwise. The result has at most 38 characters. A text of at most 35 characters is returned unchanged, and a longer one becomes its first 35 characters followed by "...". |
| Popup.RecentThreats | popup.js:72-81 | A missing or empty log shows the no-threats message. Otherwise the panel shows the first `min(5, length)` entries in log order. |
| Popup.Rows | popup.js:83-89 | One row per shown entry, in order, with the entry's truncated URL. No URL cell is longer than 38 characters. A row reads "Just now" iff its entry is less than a minute old. |
| Popup.RecentOfPrefix | popup.js:81 | A non-empty prefix of a list shows the list's first `min(5, length)` entries. |
| Popup.RecentOfReplay | popup.js:81 | For a log filled from empty, the panel shows the five most recent threats, newest first. |

## Left out

- **URL parsing.** WHATWG URL parsing (`new URL`) is not modelled. The scanner takes the parsed `href`, `protocol` and `hostname` as given, in whatever case the parser leaves them. The model folds case exactly where the worker does, so it does not depend on the parser lower-casing host names. In `truncateUrl`, the parse outcome is a parameter.
- **Browser APIs.** The `chrome.*` APIs (`storage.local`, `webNavigation`, `tabs`, `alarms`, `runtime.onMessage`) and the asynchronous interleaving of their `get`/`set` calls are not modelled. Lost updates between concurrent calls are therefore not captured. The stored values are fields of one `Storage` object, updated atomically by each operation.
- **Missing storage keys.** The defaults for missing keys (`|| []`, `|| 0`) are not modelled. The model always starts from the installed values.
- **Clock.** `Date.now()` is the parameter `now`. One value serves a whole `analyzeURL` call, where the worker reads the clock twice.
- **Midnight reset.** The alarm that resets `dailyScans` at midnight (`background.js:67-75`) is date-string handling on the clock and is not modelled.
- **Message handlers.** The `getStats`, `scanURL` and `getCurrentTabScan` messages only forward stored values or `analyzeURL` results, so they are not modelled separately.
- **Blocked page.** The blocked-page URL built with `encodeURIComponent` and `JSON.stringify` (`background.js:94-96`) is library serialisation and is not modelled.
- **Content script.** `content.js` is not part of this model: it is DOM inspection, and no handler consumes its message.
- **Popup rendering.** `formatNumber` (floating-point division with `toFixed`) and `escapeHtml`, `updateStatus` and `updateScanResult` (DOM writes) are not modelled.
- **Regular expressions.** They are encoded only for the fragment the rules use: literal runs, bracket classes and optional characters. Case folding is ASCII only, which matches what the `i` flag does for these ASCII patterns.
- **String length.** Lengths count characters, not UTF-16 code units as JavaScript does. The two agree on ASCII URLs.
- **Concrete examples.** No lemma evaluates a whole URL end to end. Verifying the combined rules on a literal URL is too costly. The concrete examples cover the subdomain rule, and the general lemmas cover the rest.
