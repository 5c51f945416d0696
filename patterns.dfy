/** The fragment of JavaScript regular expressions the threat rules use:
    unanchored, case-insensitive (`/…/i`) patterns made of literal runs,
    bracket classes such as `[o0]` (a repetition `[o0]{2}` is written as the
    class twice) and optional characters such as `-?`.  Pattern text is
    written in lower case and the subject is folded with `LowerChar`, which
    is what the `i` flag does for ASCII patterns: JavaScript's
    case-insensitive matching never maps a non-ASCII character onto an
    ASCII one. */
module Patterns {
  import opened Text

  datatype Atom =
    | Lit(word: string)         // a run of literal characters
    | AnyOf(chars: set<char>)   // a bracket class
    | Opt(c: char)              // one optional literal character

  type Regex = seq<Atom>

  /** `w[j..]` occurs in `s` at position `i + j`, ignoring case. */
  function LitAt(s: string, i: nat, w: string, j: nat): bool
    requires j <= |w|
    decreases |w| - j
  {
    j == |w| || (i + j < |s| && LowerChar(s[i + j]) == w[j] && LitAt(s, i, w, j + 1))
  }

  /** The atoms `re[k..]` match some stretch of `s` that starts at `i`. */
  function MatchAt(s: string, i: nat, re: Regex, k: nat): bool
    requires k <= |re|
    decreases |re| - k
  {
    if k == |re| then true
    else match re[k]
      case Lit(w) => LitAt(s, i, w, 0) && MatchAt(s, i + |w|, re, k + 1)
      case AnyOf(cs) => i < |s| && LowerChar(s[i]) in cs && MatchAt(s, i + 1, re, k + 1)
      case Opt(c) =>
        (i < |s| && LowerChar(s[i]) == c && MatchAt(s, i + 1, re, k + 1)) || MatchAt(s, i, re, k + 1)
  }

  /** The whole pattern matches a stretch of `s` that starts at `p`. */
  predicate MatchesAt(s: string, re: Regex, p: nat)
  {
    MatchAt(s, p, re, 0)
  }

  /** Tries every start position from `i` on, left to right. */
  function SearchFrom(s: string, re: Regex, i: nat): bool
    decreases |s| - i
  {
    i <= |s| && (MatchesAt(s, re, i) || (i < |s| && SearchFrom(s, re, i + 1)))
  }

  /** `re.test(s)` for a pattern without the `g` flag. */
  predicate Test(s: string, re: Regex)
  {
    SearchFrom(s, re, 0)
  }

  /** The search finds a match exactly when some start position at or after
      `i` matches. */
  lemma {:induction false} SearchFromIff(s: string, re: Regex, i: nat)
    requires i <= |s|
    ensures SearchFrom(s, re, i) <==> exists p :: i <= p <= |s| && MatchesAt(s, re, p)
    decreases |s| - i
  {
    if i < |s| {
      SearchFromIff(s, re, i + 1);
      if !MatchesAt(s, re, i) {
        forall p | i <= p <= |s| && MatchesAt(s, re, p) ensures i + 1 <= p { }
      }
    }
  }

  /** `test` succeeds exactly when the pattern matches at some position. */
  lemma TestIff(s: string, re: Regex)
    ensures Test(s, re) <==> exists p :: 0 <= p <= |s| && MatchesAt(s, re, p)
  {
    SearchFromIff(s, re, 0);
  }

  /** The literal matcher compares every remaining character of the word. */
  lemma {:induction false} LitAtIff(s: string, i: nat, w: string, j: nat)
    requires j <= |w|
    ensures LitAt(s, i, w, j) <==>
      (j < |w| ==> i + |w| <= |s|) && forall m :: j <= m < |w| ==> LowerChar(s[i + m]) == w[m]
    decreases |w| - j
  {
    if j < |w| {
      LitAtIff(s, i, w, j + 1);
    }
  }

  /** Is `w` found at position `p` of `s`, ignoring case? */
  predicate OccursAt(s: string, w: string, p: nat)
  {
    LitAt(s, p, w, 0)
  }

  /** The number of matches of a global literal pattern, `(s.match(/w/gi) || []).length`:
      the leftmost occurrence is counted and the scan resumes after it. */
  function CountFrom(s: string, w: string, i: nat): nat
    requires |w| > 0
    decreases |s| - i
  {
    if i + |w| > |s| then 0
    else if OccursAt(s, w, i) then 1 + CountFrom(s, w, i + |w|)
    else CountFrom(s, w, i + 1)
  }

  function MatchCount(s: string, w: string): nat
    requires |w| > 0
  {
    CountFrom(s, w, 0)
  }

  lemma OccursAtFits(s: string, w: string, p: nat)
    requires |w| > 0 && OccursAt(s, w, p)
    ensures p + |w| <= |s|
  {
    LitAtIff(s, p, w, 0);
  }

  /** At least one match from `i` on exactly when `w` occurs at or after `i`. */
  lemma {:induction false} CountFromPositive(s: string, w: string, i: nat)
    requires |w| > 0
    ensures CountFrom(s, w, i) >= 1 <==> exists p :: i <= p && OccursAt(s, w, p)
    decreases |s| - i
  {
    if i + |w| > |s| {
      forall p | i <= p ensures !OccursAt(s, w, p) {
        if OccursAt(s, w, p) { OccursAtFits(s, w, p); }
      }
    } else if !OccursAt(s, w, i) {
      CountFromPositive(s, w, i + 1);
      forall p | i <= p && OccursAt(s, w, p) ensures i + 1 <= p { }
    }
  }

  /** At least two matches from `i` on exactly when `w` occurs twice at or
      after `i` without the two occurrences overlapping. */
  lemma {:induction false} CountFromTwo(s: string, w: string, i: nat)
    requires |w| > 0
    ensures CountFrom(s, w, i) >= 2 <==>
      exists p, q :: i <= p && p + |w| <= q && OccursAt(s, w, p) && OccursAt(s, w, q)
    decreases |s| - i
  {
    if i + |w| > |s| {
      forall p | i <= p ensures !OccursAt(s, w, p) {
        if OccursAt(s, w, p) { OccursAtFits(s, w, p); }
      }
    } else if OccursAt(s, w, i) {
      CountFromPositive(s, w, i + |w|);
      if CountFrom(s, w, i) >= 2 {
        var q :| i + |w| <= q && OccursAt(s, w, q);
        assert i <= i && i + |w| <= q && OccursAt(s, w, i) && OccursAt(s, w, q);
      }
    } else {
      CountFromTwo(s, w, i + 1);
      forall p, q | i <= p && p + |w| <= q && OccursAt(s, w, p) && OccursAt(s, w, q)
        ensures i + 1 <= p
      { }
    }
  }

  /** Two occurrences of "http" never overlap: no proper suffix of the word
      is also a prefix of it. */
  lemma HttpNoOverlap(s: string, p: nat, q: nat)
    requires p < q && OccursAt(s, "http", p) && OccursAt(s, "http", q)
    ensures p + 4 <= q
  {
    LitAtIff(s, p, "http", 0);
    LitAtIff(s, q, "http", 0);
  }

  /** `/http/gi` matches more than once exactly when "http" occurs, in any
      case, at two different positions. */
  lemma HttpCountIff(s: string)
    ensures MatchCount(s, "http") > 1 <==>
      exists p, q :: 0 <= p < q && OccursAt(s, "http", p) && OccursAt(s, "http", q)
  {
    CountFromTwo(s, "http", 0);
    if exists p, q :: 0 <= p < q && OccursAt(s, "http", p) && OccursAt(s, "http", q) {
      var p, q :| 0 <= p < q && OccursAt(s, "http", p) && OccursAt(s, "http", q);
      HttpNoOverlap(s, p, q);
    }
  }
}
