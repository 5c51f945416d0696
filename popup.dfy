/** The popup's display helpers: `formatTime`, the truncation rule of
    `truncateUrl` and the choice of entries in `displayRecentThreats`. */
module Popup {
  import opened Text
  import opened Extension

  // ---------------------------------------------------------------------------
  // Decimal numerals

  function DigitChar(d: nat): char
    requires d < 10
  {
    "0123456789"[d]
  }

  function DigitValue(c: char): int
  {
    c as int - '0' as int
  }

  predicate IsDigitChar(c: char)
  {
    '0' <= c <= '9'
  }

  /** `n.toString()` for a non-negative integer. */
  function NatToString(n: nat): (r: string)
    ensures |r| >= 1
    ensures forall i :: 0 <= i < |r| ==> IsDigitChar(r[i])
    ensures n == 0 ==> r == "0"
    ensures n > 0 ==> r[0] != '0'
    ensures |r| > 1 ==> r[0] != '0'
  {
    if n < 10 then [DigitChar(n)] else NatToString(n / 10) + [DigitChar(n % 10)]
  }

  /** The value of a string of decimal digits. */
  function DecimalValue(s: string): int
  {
    if s == [] then 0 else 10 * DecimalValue(s[..|s| - 1]) + DigitValue(s[|s| - 1])
  }

  /** Reading back a numeral gives the number. */
  lemma {:induction false} DecimalRoundTrip(n: nat)
    ensures DecimalValue(NatToString(n)) == n
    decreases n
  {
    var r := NatToString(n);
    if n < 10 {
      assert r[..0] == [];
    } else {
      DecimalRoundTrip(n / 10);
      assert r[..|r| - 1] == NatToString(n / 10);
    }
  }

  // ---------------------------------------------------------------------------
  // formatTime

  /** The bucket an elapsed time falls into, with its whole count. */
  datatype Elapsed = JustNow | MinutesAgo(minutes: nat) | HoursAgo(hours: nat) | DaysAgo(days: nat)

  /** The bucket of `diff = now - timestamp` milliseconds; a negative
      difference (a timestamp in the future) is "just now". */
  function ElapsedOf(diff: int): (e: Elapsed)
    ensures e.JustNow? <==> diff < 60000
    ensures e.MinutesAgo? <==> 60000 <= diff < 3600000
    ensures e.HoursAgo? <==> 3600000 <= diff < 86400000
    ensures e.DaysAgo? <==> 86400000 <= diff
    ensures e.MinutesAgo? ==> 1 <= e.minutes <= 59 && e.minutes * 60000 <= diff < (e.minutes + 1) * 60000
    ensures e.HoursAgo? ==> 1 <= e.hours <= 23 && e.hours * 3600000 <= diff < (e.hours + 1) * 3600000
    ensures e.DaysAgo? ==> 1 <= e.days && e.days * 86400000 <= diff < (e.days + 1) * 86400000
  {
    if diff < 60000 then JustNow
    else if diff < 3600000 then MinutesAgo(diff / 60000)
    else if diff < 86400000 then HoursAgo(diff / 3600000)
    else DaysAgo(diff / 86400000)
  }

  function Render(e: Elapsed): string
  {
    match e
    case JustNow => "Just now"
    case MinutesAgo(m) => NatToString(m) + "m ago"
    case HoursAgo(h) => NatToString(h) + "h ago"
    case DaysAgo(d) => NatToString(d) + "d ago"
  }

  /** `formatTime(timestamp)` at time `now`. */
  function FormatTime(timestamp: int, now: int): string
  {
    Render(ElapsedOf(now - timestamp))
  }

  /** "Just now" is shown exactly when less than a minute has passed,
      a timestamp in the future included. */
  lemma JustNowIff(timestamp: int, now: int)
    ensures FormatTime(timestamp, now) == "Just now" <==> now - timestamp < 60000
  {
    var e := ElapsedOf(now - timestamp);
    if !e.JustNow? {
      var n := match e case MinutesAgo(m) => m case HoursAgo(h) => h case DaysAgo(d) => d case JustNow => 0;
      assert FormatTime(timestamp, now)[0] == NatToString(n)[0];
      assert IsDigitChar(NatToString(n)[0]);
    }
  }

  /** The whole number of units of a bucket, and its unit letter. */
  function Count(e: Elapsed): nat
  {
    match e
    case JustNow => 0
    case MinutesAgo(m) => m
    case HoursAgo(h) => h
    case DaysAgo(d) => d
  }

  function UnitLetter(e: Elapsed): char
  {
    match e
    case JustNow => ' '
    case MinutesAgo(_) => 'm'
    case HoursAgo(_) => 'h'
    case DaysAgo(_) => 'd'
  }

  /** Every text other than "Just now" is a numeral, a unit letter and
      " ago", and the numeral reads back as the number of whole units. */
  lemma AgoText(timestamp: int, now: int)
    requires now - timestamp >= 60000
    ensures var e := ElapsedOf(now - timestamp);
      var t := FormatTime(timestamp, now);
      |t| > 5 && t[|t| - 4..] == " ago" && t[|t| - 5] == UnitLetter(e) &&
      DecimalValue(t[..|t| - 5]) == Count(e)
  {
    var e := ElapsedOf(now - timestamp);
    var t := FormatTime(timestamp, now);
    DecimalRoundTrip(Count(e));
    assert t == NatToString(Count(e)) + [UnitLetter(e)] + " ago";
    assert t[..|t| - 5] == NatToString(Count(e));
  }

  // ---------------------------------------------------------------------------
  // truncateUrl

  /** More than 35 characters are cut to 35 followed by "...". */
  function Truncate(display: string): (r: string)
    ensures |r| <= 38
    ensures |display| <= 35 ==> r == display
    ensures |display| > 35 ==> |r| == 38 && r[..35] == display[..35] && r[35..] == "..."
  {
    if |display| > 35 then display[..35] + "..." else display
  }

  /** The text `truncateUrl` shortens: host name and path when the URL
      parses, and the raw string when it does not. */
  function DisplayText(url: string, parsed: Option<(string, string)>): string
  {
    match parsed
    case Some((hostname, pathname)) => hostname + pathname
    case None => url
  }

  /** `truncateUrl(url)`, given what parsing `url` as a URL yields: its
      host name and path when it parses, and nothing when it does not. */
  function TruncateUrl(url: string, parsed: Option<(string, string)>): (r: string)
    ensures var d := DisplayText(url, parsed);
      |r| <= 38 && (|d| <= 35 ==> r == d) && (|d| > 35 ==> r == d[..35] + "...")
  {
    var d := DisplayText(url, parsed);
    var r := Truncate(d);
    assert |d| > 35 ==> r == r[..35] + r[35..];
    r
  }

  // ---------------------------------------------------------------------------
  // displayRecentThreats

  /** What the recent-threats panel shows. */
  datatype RecentPanel = NoThreatsYet | Entries(entries: seq<LogEntry>)

  const MaxRecent: nat := 5

  /** The panel for the stored log, which may be missing. */
  function RecentThreats(threats: Option<seq<LogEntry>>): (p: RecentPanel)
    ensures p.NoThreatsYet? <==> threats.None? || threats.value == []
    ensures p.Entries? ==> |p.entries| == Min(|threats.value|, MaxRecent)
    ensures p.Entries? ==> forall i :: 0 <= i < |p.entries| ==> p.entries[i] == threats.value[i]
  {
    if threats.None? || threats.value == [] then NoThreatsYet
    else if |threats.value| <= MaxRecent then Entries(threats.value)
    else Entries(threats.value[..MaxRecent])
  }

  /** One row of the panel: the shortened URL and the time since. */
  datatype Row = Row(url: string, time: string)

  /** "Just now" exactly for the entries less than a minute old. */
  lemma JustNowEach(es: seq<LogEntry>, now: int)
    ensures forall i :: 0 <= i < |es| ==>
      (FormatTime(es[i].timestamp, now) == "Just now" <==> now - es[i].timestamp < 60000)
  {
    forall i | 0 <= i < |es|
      ensures FormatTime(es[i].timestamp, now) == "Just now" <==> now - es[i].timestamp < 60000
    {
      JustNowIff(es[i].timestamp, now);
    }
  }

  /** The rows of the panel at time `now`, one per shown entry and in the
      same order; `parse` stands for parsing a string as a URL.  No URL
      cell is longer than 38 characters, and a row reads "Just now"
      exactly when its entry is less than a minute old. */
  function Rows(panel: RecentPanel, now: int, parse: string -> Option<(string, string)>): (rows: seq<Row>)
    ensures panel.NoThreatsYet? ==> rows == []
    ensures panel.Entries? ==> |rows| == |panel.entries|
    ensures panel.Entries? ==> forall i :: 0 <= i < |rows| ==>
      (rows[i].time == "Just now" <==> now - panel.entries[i].timestamp < 60000)
    ensures panel.Entries? ==> forall i :: 0 <= i < |rows| ==>
      rows[i].url == TruncateUrl(panel.entries[i].url, parse(panel.entries[i].url))
    ensures panel.Entries? ==> forall i :: 0 <= i < |rows| ==> |rows[i].url| <= 38
  {
    match panel
    case NoThreatsYet => []
    case Entries(es) =>
      JustNowEach(es, now);
      seq(|es|, i requires 0 <= i < |es| =>
        Row(TruncateUrl(es[i].url, parse(es[i].url)), FormatTime(es[i].timestamp, now)))
  }

  /** The panel of a non-empty prefix of a list shows the first five
      entries of the list, or the whole prefix when it is shorter. */
  lemma RecentOfPrefix(full: seq<LogEntry>, m: nat)
    requires 1 <= m <= |full|
    ensures RecentThreats(Some(full[..m])) == Entries(full[..Min(m, MaxRecent)])
  {
    var p := RecentThreats(Some(full[..m]));
    var k := Min(m, MaxRecent);
    forall i | 0 <= i < k ensures p.entries[i] == full[..k][i] {
      assert p.entries[i] == full[..m][i];
    }
    assert p.entries == full[..k];
  }

  /** The panel of a log filled from empty shows the five most recent
      entries, newest first. */
  lemma RecentOfReplay(es: seq<LogEntry>)
    requires es != []
    ensures RecentThreats(Some(Replay([], es))) == Entries(Reverse(es)[..Min(|es|, MaxRecent)])
  {
    ReplayNewest(es);
    RecentOfPrefix(Reverse(es), Min(|es|, MaxLogEntries));
  }
}
