/** The background worker's bookkeeping around the scanner: the block
    decision of the navigation listener, the bounded threat log of
    `logThreat`, the counters of `incrementScanCount` and the `enabled`
    switch, over the values the worker keeps in `chrome.storage.local`.
    Time is the parameter `now`. */
module Extension {
  import opened Scanner

  /** One entry of `threatLog`. */
  datatype LogEntry = LogEntry(url: string, threats: seq<Threat>, threatLevel: Level, prediction: string, timestamp: int)

  /** The log keeps at most this many entries. */
  const MaxLogEntries: nat := 100

  // ---------------------------------------------------------------------------
  // The block decision

  /** A navigation is redirected to the warning page exactly at level high
      or critical. */
  predicate ShouldBlock(level: Level)
  {
    level == Level.High || level == Level.Critical
  }

  /** Redirection happens exactly from a score of 50 on. */
  lemma BlockIffScore(score: int)
    ensures ShouldBlock(LevelOf(score)) <==> score >= 50
  {
  }

  /** A scan result is blocked exactly when its score is at least 50; an
      allowlisted URL is never blocked. */
  lemma BlockedScans(url: Url)
    ensures ShouldBlock(Evaluate(url).threatLevel) <==> Evaluate(url).score >= 50
    ensures IsAllowlisted(url.hostname) ==> !ShouldBlock(Evaluate(url).threatLevel)
  {
    BlockIffScore(Evaluate(url).score);
  }

  // ---------------------------------------------------------------------------
  // The threat log

  /** The log after `unshift(e)` and, when it has grown beyond the bound,
      one `pop()`. */
  function Logged(log: seq<LogEntry>, e: LogEntry): (r: seq<LogEntry>)
    ensures |r| == if |log| + 1 > MaxLogEntries then |log| else |log| + 1
    ensures r[0] == e
    ensures r[1..] == log[..|r| - 1]
  {
    var grown := [e] + log;
    if |grown| > MaxLogEntries then grown[..|grown| - 1] else grown
  }

  /** The log after logging `es` in turn, starting from `log`. */
  function Replay(log: seq<LogEntry>, es: seq<LogEntry>): seq<LogEntry>
  {
    if es == [] then log else Logged(Replay(log, es[..|es| - 1]), es[|es| - 1])
  }

  function Reverse<T>(s: seq<T>): (r: seq<T>)
    ensures |r| == |s|
    ensures forall i :: 0 <= i < |s| ==> r[i] == s[|s| - 1 - i]
  {
    if s == [] then [] else [s[|s| - 1]] + Reverse(s[..|s| - 1])
  }

  function Min(a: int, b: int): int
  {
    if a <= b then a else b
  }

  /** Logged from empty, the log holds the most recent hundred entries,
      newest first. */
  lemma {:induction false} ReplayNewest(es: seq<LogEntry>)
    ensures Replay([], es) == Reverse(es)[..Min(|es|, MaxLogEntries)]
    decreases |es|
  {
    if es != [] {
      var init := es[..|es| - 1];
      ReplayNewest(init);
      var prev := Replay([], init);
      var r := Replay([], es);
      var rev := Reverse(es);
      assert r == Logged(prev, es[|es| - 1]);
      assert |r| == Min(|es|, MaxLogEntries);
      forall i | 0 <= i < |r| ensures r[i] == rev[i] {
        if i > 0 {
          assert r[i] == r[1..][i - 1] == prev[i - 1];
          assert prev[i - 1] == Reverse(init)[i - 1] == init[|init| - i];
        }
      }
    }
  }

  /** Logging keeps the bound on the length of the log. */
  lemma LoggedBounded(log: seq<LogEntry>, e: LogEntry)
    requires |log| <= MaxLogEntries
    ensures |Logged(log, e)| <= MaxLogEntries
  {
  }

  // ---------------------------------------------------------------------------
  // The stored state

  /** What a navigation led to. */
  datatype Navigation =
    | Skipped                 // a sub-frame, the extension switched off, or a browser page
    | Allowed(scan: ScanResult)
    | Blocked(scan: ScanResult)   // the tab is sent to the warning page

  /** The values the worker keeps in `chrome.storage.local`. */
  class Storage {
    var enabled: bool
    var threatLog: seq<LogEntry>
    var totalScans: nat
    var threatsBlocked: nat
    var dailyScans: nat

    ghost predicate Valid()
      reads this
    {
      |threatLog| <= MaxLogEntries
    }

    /** The values stored when the extension is installed. */
    constructor ()
      ensures Valid()
      ensures enabled && threatLog == [] && totalScans == 0 && threatsBlocked == 0 && dailyScans == 0
    {
      enabled := true;
      threatLog := [];
      totalScans := 0;
      threatsBlocked := 0;
      dailyScans := 0;
    }

    /** `logThreat`: the newest entry goes first, the oldest is dropped
        beyond the bound, and the blocked count goes up by one. */
    method LogThreat(url: string, scan: ScanResult, now: int)
      requires Valid()
      modifies this
      ensures Valid()
      ensures threatLog == Logged(old(threatLog), LogEntry(url, scan.threats, scan.threatLevel, scan.prediction, now))
      ensures threatsBlocked == old(threatsBlocked) + 1
      ensures enabled == old(enabled) && totalScans == old(totalScans) && dailyScans == old(dailyScans)
    {
      var log := threatLog;
      log := [LogEntry(url, scan.threats, scan.threatLevel, scan.prediction, now)] + log;
      if |log| > MaxLogEntries {
        log := log[..|log| - 1];
      }
      threatLog := log;
      threatsBlocked := threatsBlocked + 1;
    }

    /** `incrementScanCount`: both scan counters go up by one. */
    method IncrementScanCount()
      modifies this
      ensures totalScans == old(totalScans) + 1 && dailyScans == old(dailyScans) + 1
      ensures enabled == old(enabled) && threatLog == old(threatLog) && threatsBlocked == old(threatsBlocked)
    {
      totalScans := totalScans + 1;
      dailyScans := dailyScans + 1;
    }

    /** The `toggleEnabled` message: the switch flips and the new state is
        the reply. */
    method ToggleEnabled() returns (newState: bool)
      modifies this
      ensures newState == !old(enabled) && enabled == newState
      ensures threatLog == old(threatLog) && totalScans == old(totalScans)
      ensures threatsBlocked == old(threatsBlocked) && dailyScans == old(dailyScans)
    {
      newState := !enabled;
      enabled := newState;
    }

    /** The `webNavigation.onBeforeNavigate` listener: only top-level
        navigations of an enabled extension to pages other than the
        browser's own are scanned; they are counted, and those at level
        high or critical are logged and blocked. */
    method OnBeforeNavigate(analyzer: Analyzer, frameId: int, url: Url, now: int) returns (outcome: Navigation)
      requires Valid() && analyzer.Valid()
      modifies this, analyzer
      ensures Valid() && analyzer.Valid()
      ensures enabled == old(enabled)
      ensures frameId != 0 || !old(enabled) || url.protocol == "chrome:" || url.protocol == "chrome-extension:" ==>
        outcome == Skipped && threatLog == old(threatLog) && totalScans == old(totalScans) &&
        threatsBlocked == old(threatsBlocked) && dailyScans == old(dailyScans) &&
        analyzer.cache == old(analyzer.cache)
      ensures outcome.Allowed? ==>
        WellFormed(outcome.scan) && !ShouldBlock(outcome.scan.threatLevel) &&
        threatLog == old(threatLog) && threatsBlocked == old(threatsBlocked)
      ensures outcome.Blocked? ==>
        WellFormed(outcome.scan) && ShouldBlock(outcome.scan.threatLevel) &&
        threatLog == Logged(old(threatLog), LogEntry(url.href, outcome.scan.threats, outcome.scan.threatLevel, outcome.scan.prediction, now)) &&
        threatsBlocked == old(threatsBlocked) + 1
      ensures !outcome.Skipped? ==>
        totalScans == old(totalScans) + 1 && dailyScans == old(dailyScans) + 1 &&
        ScanOf(outcome.scan, url.href)
      ensures !outcome.Skipped? ==> CacheStep(old(analyzer.cache), analyzer.cache, url, now, outcome.scan)
      ensures outcome.Skipped? <==> frameId != 0 || !old(enabled) || url.protocol == "chrome:" || url.protocol == "chrome-extension:"
    {
      if frameId != 0 {
        return Skipped;
      }
      if !enabled {
        return Skipped;
      }
      if url.protocol == "chrome:" || url.protocol == "chrome-extension:" {
        return Skipped;
      }
      var scanResult := analyzer.AnalyzeUrl(url, now);
      if ShouldBlock(scanResult.threatLevel) {
        LogThreat(url.href, scanResult, now);
        outcome := Blocked(scanResult);
      } else {
        outcome := Allowed(scanResult);
      }
      IncrementScanCount();
    }
  }
}
