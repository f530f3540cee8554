/**
 * Hand-written left-to-right scanners for the regular expressions of
 * server/services/text-similarity.ts. Every scanner runs over text that is already
 * lower-cased, which is what the source's case-insensitive (`i`) flag amounts to on ASCII.
 */
module Scanners {
  import opened Strings
  import opened Wrappers

  predicate NonEmptyAlternatives(alts: seq<string>) {
    forall k :: 0 <= k < |alts| ==> |alts[k]| > 0
  }

  /** Regex alternation at one position: the first alternative (in written order) that is a prefix of `s`. */
  function FirstAlternative(s: string, alts: seq<string>): (r: Option<nat>)
    ensures r.Some? ==> r.value < |alts| && alts[r.value] <= s
    ensures r.Some? ==> forall k :: 0 <= k < r.value ==> !(alts[k] <= s)
    ensures r.None? <==> forall k :: 0 <= k < |alts| ==> !(alts[k] <= s)
  {
    if alts == [] then None
    else if alts[0] <= s then Some(0)
    else
      match FirstAlternative(s, alts[1..])
      case None => None
      case Some(k) => Some(k + 1)
  }

  /**
   * `s.match(/alt1|alt2|.../g)` as a list of whole matches: at each position the first
   * matching alternative wins and scanning resumes after it; there are no word boundaries.
   * An empty alternative (none of the source's patterns has one) matches the empty string and
   * moves the scan on by one character.
   */
  function ScanAlternatives(s: string, alts: seq<string>): seq<string>
    decreases |s|
  {
    if s == [] then []
    else
      match FirstAlternative(s, alts)
      case Some(k) => [alts[k]] + ScanAlternatives(s[if |alts[k]| == 0 then 1 else |alts[k]|..], alts)
      case None => ScanAlternatives(s[1..], alts)
  }

  lemma {:induction false} ContainsSuffix(s: string, n: nat, m: string)
    requires n <= |s|
    requires Contains(s[n..], m)
    ensures Contains(s, m)
    decreases n
  {
    if n > 0 {
      assert s[1..][n - 1..] == s[n..];
      ContainsSuffix(s[1..], n - 1, m);
    }
  }

  /** Every reported match is one of the alternatives and occurs in the scanned text. */
  lemma {:induction false} ScanAlternativesSound(s: string, alts: seq<string>)
    ensures forall j :: 0 <= j < |ScanAlternatives(s, alts)| ==>
      ScanAlternatives(s, alts)[j] in alts && Contains(s, ScanAlternatives(s, alts)[j])
    decreases |s|
  {
    if s != [] {
      match FirstAlternative(s, alts)
      case Some(k) =>
        var n := if |alts[k]| == 0 then 1 else |alts[k]|;
        var rest := s[n..];
        ScanAlternativesSound(rest, alts);
        forall m | m in ScanAlternatives(rest, alts)
          ensures Contains(s, m)
        {
          ContainsSuffix(s, n, m);
        }
      case None =>
        ScanAlternativesSound(s[1..], alts);
    }
  }

  /** The scan finds nothing exactly when no alternative occurs anywhere in the text. */
  lemma {:induction false} ScanAlternativesEmptyIff(s: string, alts: seq<string>)
    requires NonEmptyAlternatives(alts)
    ensures ScanAlternatives(s, alts) == [] <==> forall k :: 0 <= k < |alts| ==> !Contains(s, alts[k])
    decreases |s|
  {
    if s == [] {
      forall k | 0 <= k < |alts|
        ensures !Contains(s, alts[k])
      {
        assert !(alts[k] <= s);
      }
    } else {
      match FirstAlternative(s, alts)
      case Some(k) =>
        assert Contains(s, alts[k]);
      case None =>
        ScanAlternativesEmptyIff(s[1..], alts);
        forall k | 0 <= k < |alts|
          ensures Contains(s, alts[k]) <==> Contains(s[1..], alts[k])
        {
          assert !(alts[k] <= s);
        }
    }
  }

  // ---- `(?:experience with|...)\s+([^.;,]+)` ----

  predicate IsClauseDelimiter(c: char) {
    c == '.' || c == ';' || c == ','
  }

  /** Length of the longest prefix of `s` free of `.`, `;` and `,` (the class `[^.;,]`). */
  function ClauseLength(s: string): (n: nat)
    ensures n <= |s|
    ensures forall i :: 0 <= i < n ==> !IsClauseDelimiter(s[i])
    ensures n < |s| ==> IsClauseDelimiter(s[n])
  {
    if s == [] || IsClauseDelimiter(s[0]) then 0 else 1 + ClauseLength(s[1..])
  }

  /**
   * `\s+([^.;,]+)` anchored at the start of `t`. Because `[^.;,]` also matches whitespace,
   * the match succeeds exactly when `t` starts with whitespace and at least two characters
   * precede the next delimiter, and it then always extends to that delimiter.
   */
  function ClauseAfterCue(t: string): (r: Option<nat>)
    ensures r.Some? ==> 2 <= r.value <= |t| && IsSpace(t[0])
    ensures r.Some? ==> forall i :: 0 <= i < r.value ==> !IsClauseDelimiter(t[i])
    ensures r.Some? ==> r.value == |t| || IsClauseDelimiter(t[r.value])
  {
    var n := ClauseLength(t);
    if n >= 2 && IsSpace(t[0]) then Some(n) else None
  }

  /** `cue` is a prefix of `s` and is followed by a clause. */
  predicate CueApplies(s: string, cue: string) {
    cue <= s && ClauseAfterCue(s[|cue|..]).Some?
  }

  /** Alternation over the cues: the first one whose whole pattern matches at the start of `s`. */
  function FirstCue(s: string, cues: seq<string>): (r: Option<nat>)
    ensures r.Some? ==> r.value < |cues| && CueApplies(s, cues[r.value])
    ensures r.Some? ==> forall k :: 0 <= k < r.value ==> !CueApplies(s, cues[k])
    ensures r.None? <==> forall k :: 0 <= k < |cues| ==> !CueApplies(s, cues[k])
  {
    if cues == [] then None
    else if CueApplies(s, cues[0]) then Some(0)
    else
      var rest := cues[1..];
      assert forall k :: 0 <= k < |rest| ==> rest[k] == cues[k + 1];
      match FirstCue(s, rest)
      case None => None
      case Some(k) => Some(k + 1)
  }

  /** Length of the whole match of the cue pattern at the start of `s`, if it matches there. */
  function CueMatchLength(s: string, cues: seq<string>): (r: Option<nat>)
    ensures r.Some? ==> 0 < r.value <= |s|
  {
    match FirstCue(s, cues)
    case None => None
    case Some(k) => Some(|cues[k]| + ClauseAfterCue(s[|cues[k]|..]).value)
  }

  const SkillCues: seq<string> :=
    ["experience with", "proficient in", "knowledge of", "skills in", "familiar with"]

  /** `m` is a cue, whitespace, then a clause free of delimiters. */
  predicate IsClauseOf(m: string, cue: string) {
    cue <= m && |m| >= |cue| + 2 && IsSpace(m[|cue|])
    && forall i :: |cue| <= i < |m| ==> !IsClauseDelimiter(m[i])
  }

  /** A whole match of the cue pattern. */
  predicate IsCueClause(m: string) {
    exists k :: 0 <= k < |SkillCues| && IsClauseOf(m, SkillCues[k])
  }

  /** `s.match(/(?:experience with|...)\s+([^.;,]+)/gi)`: whole matches, cue included. */
  function ScanCueClauses(s: string): seq<string>
    decreases |s|
  {
    if s == [] then []
    else
      match CueMatchLength(s, SkillCues)
      case Some(n) => [s[..n]] + ScanCueClauses(s[n..])
      case None => ScanCueClauses(s[1..])
  }

  /** The match of an alternation of cues is the first applicable cue followed by its clause. */
  lemma ClauseOfFirstCue(s: string, n: nat, cues: seq<string>) returns (k: nat)
    requires CueMatchLength(s, cues) == Some(n)
    ensures k < |cues| && IsClauseOf(s[..n], cues[k])
    ensures n == |s| || IsClauseDelimiter(s[n])
  {
    k := FirstCue(s, cues).value;
    var c := |cues[k]|;
    var rest := s[c..];
    var t := ClauseAfterCue(rest).value;
    assert n == c + t;
    var m := s[..n];
    assert cues[k] <= m;
    assert m[c] == rest[0];
    forall i | c <= i < |m|
      ensures !IsClauseDelimiter(m[i])
    {
      assert m[i] == rest[i - c];
    }
    if n < |s| {
      assert s[n] == rest[t];
    }
  }

  /** A match found at the start of `s` is a cue clause that runs to a delimiter or to the end. */
  lemma CueMatchIsClause(s: string, n: nat)
    requires CueMatchLength(s, SkillCues) == Some(n)
    ensures IsCueClause(s[..n])
    ensures n == |s| || IsClauseDelimiter(s[n])
  {
    var k := ClauseOfFirstCue(s, n, SkillCues);
  }

  /** One match of the cue pattern: a cue phrase with its clause, found in the text. */
  lemma {:induction false} ScanCueClauseMember(s: string, x: string)
    requires x in ScanCueClauses(s)
    ensures IsCueClause(x) && Contains(s, x)
    decreases |s|
  {
    match CueMatchLength(s, SkillCues)
    case Some(n) =>
      if x == s[..n] {
        CueMatchIsClause(s, n);
        assert x <= s;
      } else {
        ScanCueClauseMember(s[n..], x);
        ContainsSuffix(s, n, x);
      }
    case None =>
      ScanCueClauseMember(s[1..], x);
      ContainsSuffix(s, 1, x);
  }

  /** Every match is a cue phrase with its clause and occurs in the text. */
  lemma ScanCueClausesSound(s: string)
    ensures forall j :: 0 <= j < |ScanCueClauses(s)| ==>
      IsCueClause(ScanCueClauses(s)[j]) && Contains(s, ScanCueClauses(s)[j])
  {
    forall j | 0 <= j < |ScanCueClauses(s)|
      ensures IsCueClause(ScanCueClauses(s)[j]) && Contains(s, ScanCueClauses(s)[j])
    {
      ScanCueClauseMember(s, ScanCueClauses(s)[j]);
    }
  }

  // ---- `(\d+)\s*\+?\s*years` ----

  function DigitRun(s: string): (n: nat)
    ensures n <= |s|
    ensures forall i :: 0 <= i < n ==> IsDigit(s[i])
    ensures n < |s| ==> !IsDigit(s[n])
  {
    if s == [] || !IsDigit(s[0]) then 0 else 1 + DigitRun(s[1..])
  }

  function SpaceRun(s: string): (n: nat)
    ensures n <= |s|
    ensures forall i :: 0 <= i < n ==> IsSpace(s[i])
    ensures n < |s| ==> !IsSpace(s[n])
  {
    if s == [] || !IsSpace(s[0]) then 0 else 1 + SpaceRun(s[1..])
  }

  /** `parseInt` of a run of decimal digits. */
  function DecimalValue(ds: string): nat
    requires forall i :: 0 <= i < |ds| ==> IsDigit(ds[i])
  {
    if ds == [] then 0
    else
      assert IsDigit(ds[|ds| - 1]);
      10 * DecimalValue(ds[..|ds| - 1]) + (ds[|ds| - 1] as int - '0' as int)
  }

  function DigitChar(d: nat): (c: char)
    requires d < 10
    ensures IsDigit(c) && c as int - '0' as int == d
  {
    ('0' as int + d) as char
  }

  /** `String(n)` for a non-negative integer: its decimal digits, most significant first. */
  function DecimalString(n: nat): (s: string)
    ensures |s| > 0
    ensures forall i :: 0 <= i < |s| ==> IsDigit(s[i])
  {
    if n < 10 then [DigitChar(n)] else DecimalString(n / 10) + [DigitChar(n % 10)]
  }

  /** Reading back the digits of `DecimalString(n)` gives `n`. */
  lemma {:induction false} DecimalRoundTrip(n: nat)
    ensures DecimalValue(DecimalString(n)) == n
  {
    var s := DecimalString(n);
    if n < 10 {
      assert s[..0] == [];
    } else {
      DecimalRoundTrip(n / 10);
      assert s[..|s| - 1] == DecimalString(n / 10);
    }
  }

  /**
   * `(\d+)\s*\+?\s*years` anchored at the start of `s`, giving the number it captured.
   * Backtracking never changes the outcome: the next item always starts with a character
   * the previous greedy item cannot consume.
   */
  function YearsAt(s: string): Option<nat> {
    var d := DigitRun(s);
    if d == 0 then None
    else
      var rest := s[d..];
      var a := SpaceRun(rest);
      var p := if a < |rest| && rest[a] == '+' then a + 1 else a;
      var b := p + SpaceRun(rest[p..]);
      if "years" <= rest[b..] then Some(DecimalValue(s[..d])) else None
  }

  /** `s.match(/(\d+)\s*\+?\s*years/i)`: the number of the leftmost match, if any. */
  function FirstYears(s: string): (r: Option<nat>)
    ensures r.Some? ==> exists i :: 0 <= i < |s| && YearsAt(s[i..]) == r
    ensures r.None? ==> forall i :: 0 <= i < |s| ==> YearsAt(s[i..]).None?
    decreases |s|
  {
    if s == [] then None
    else if YearsAt(s).Some? then
      assert s[0..] == s;
      YearsAt(s)
    else
      var r := FirstYears(s[1..]);
      assert forall i :: 1 <= i <= |s| ==> s[1..][i - 1..] == s[i..];
      if r.Some? then
        var i :| 0 <= i < |s[1..]| && YearsAt(s[1..][i..]) == r;
        assert YearsAt(s[i + 1..]) == r;
        r
      else
        assert s[0..] == s;
        r
  }

  lemma {:induction false} NoDigitsNoYears(s: string)
    requires forall i :: 0 <= i < |s| ==> !IsDigit(s[i])
    ensures FirstYears(s) == None
    decreases |s|
  {
    if s != [] {
      NoDigitsNoYears(s[1..]);
    }
  }

  // ---- `new Set` filled in order, then `Array.from` ----

  function IndexOf(xs: seq<string>, x: string): (i: nat)
    requires x in xs
    ensures i < |xs| && xs[i] == x
    ensures forall k :: 0 <= k < i ==> xs[k] != x
  {
    if xs[0] == x then 0 else 1 + IndexOf(xs[1..], x)
  }

  /** The contents of a JavaScript `Set` after adding `xs` one by one, in insertion order. */
  function Dedup(xs: seq<string>): seq<string> {
    if xs == [] then []
    else
      var d := Dedup(xs[..|xs| - 1]);
      if xs[|xs| - 1] in d then d else d + [xs[|xs| - 1]]
  }

  predicate NoDuplicates(xs: seq<string>) {
    forall i, j :: 0 <= i < j < |xs| ==> xs[i] != xs[j]
  }

  lemma IndexOfPrefix(xs: seq<string>, y: string, x: string)
    requires x in xs
    ensures x in xs + [y] && IndexOf(xs + [y], x) == IndexOf(xs, x)
  {
    var i := IndexOf(xs, x);
    var j := IndexOf(xs + [y], x);
    assert (xs + [y])[i] == x;
    assert j <= i;
    assert xs[j] == x;
  }

  /**
   * Set semantics with insertion order: no duplicates, exactly the input's elements,
   * listed in the order of their first occurrence.
   */
  lemma {:induction false} DedupIsInsertionOrderedSet(xs: seq<string>)
    ensures NoDuplicates(Dedup(xs))
    ensures forall x :: x in Dedup(xs) <==> x in xs
    ensures forall i, j :: 0 <= i < j < |Dedup(xs)| ==>
      IndexOf(xs, Dedup(xs)[i]) < IndexOf(xs, Dedup(xs)[j])
    decreases |xs|
  {
    if xs != [] {
      var front := xs[..|xs| - 1];
      var y := xs[|xs| - 1];
      assert xs == front + [y];
      DedupIsInsertionOrderedSet(front);
      var d := Dedup(front);
      forall x | x in front
        ensures IndexOf(xs, x) == IndexOf(front, x)
      {
        IndexOfPrefix(front, y, x);
      }
      if y !in d {
        assert IndexOf(xs, y) == |front|;
        forall i | 0 <= i < |d|
          ensures IndexOf(xs, d[i]) < IndexOf(xs, y)
        {
          assert d[i] in front;
        }
      }
    }
  }
}
