/**
 * The deterministic analyser `TextSimilarityAnalyzer` (server/services/text-similarity.ts):
 * skill, experience, education and token-overlap sub-scores, their weighted combination,
 * and the templated strengths, improvements, recommendations and summary.
 *
 * Scores are computed with exact integer arithmetic; `Math.round` becomes round-half-up
 * of an exact rational.
 */
module TextSimilarity {
  import opened Strings
  import opened Wrappers
  import opened Tokenizer
  import opened Scanners

  // ---------------------------------------------------------------- rounding

  /** `Math.round(n / d)` on exact rationals: the nearest integer, halves rounded up. */
  function RoundHalfUp(n: nat, d: nat): (r: nat)
    requires d > 0
    ensures 2 * d * r <= 2 * n + d < 2 * d * r + 2 * d
  {
    (2 * n + d) / (2 * d)
  }

  /** `Math.round(part / whole * 100)`. */
  function Percent(part: nat, whole: nat): nat
    requires whole > 0
  {
    RoundHalfUp(100 * part, whole)
  }

  lemma MulMonotone(c: nat, a: nat, b: nat)
    requires a <= b
    ensures c * a <= c * b
  {
  }

  lemma PercentBounds(part: nat, whole: nat)
    requires 0 < whole && part <= whole
    ensures Percent(part, whole) <= 100
    ensures part == 0 ==> Percent(part, whole) == 0
    ensures part == whole ==> Percent(part, whole) == 100
  {
    var r := Percent(part, whole);
    assert r <= 100 by {
      if r > 100 {
        MulMonotone(2 * whole, 101, r);
      }
    }
    if part == 0 {
      if r > 0 {
        MulMonotone(2 * whole, 1, r);
      }
    }
    if part == whole {
      if r < 100 {
        MulMonotone(2 * whole, r, 99);
      }
    }
  }

  // ---------------------------------------------------------------- skill keywords

  const SkillVocabulary: seq<string> :=
    ["javascript", "python", "java", "react", "node.js", "html", "css", "sql", "aws", "docker",
     "kubernetes", "git"]

  const FrameworkVocabulary: seq<string> :=
    ["typescript", "vue", "angular", "mongodb", "postgresql", "redis", "microservices", "api",
     "rest", "graphql"]

  /** The three skill patterns: the cue-phrase clause pattern and two vocabulary alternations. */
  datatype SkillPattern = CuePattern | Vocabulary(terms: seq<string>)

  const SkillPatterns: seq<SkillPattern> :=
    [CuePattern, Vocabulary(SkillVocabulary), Vocabulary(FrameworkVocabulary)]

  /**
   * `text.match(pattern)` with the global flag, `[]` standing for `null`. Matching the
   * lower-cased text stands for the case-insensitive match followed by `toLowerCase()`.
   */
  function PatternMatches(p: SkillPattern, lowerJob: string): seq<string> {
    match p
    case CuePattern => ScanCueClauses(lowerJob)
    case Vocabulary(terms) => ScanAlternatives(lowerJob, terms)
  }

  /**
   * A match occurs in the scanned text; a match of the cue pattern is a cue clause and a match
   * of a vocabulary is one of its terms.
   */
  lemma PatternMatchOrigin(p: SkillPattern, lowerJob: string, k: string)
    requires k in PatternMatches(p, lowerJob)
    ensures Contains(lowerJob, k)
    ensures if p.CuePattern? then IsCueClause(k) else k in p.terms
  {
    match p
    case CuePattern =>
      ScanCueClausesSound(lowerJob);
    case Vocabulary(terms) =>
      ScanAlternativesSound(lowerJob, terms);
  }

  /** The match list of each pattern, in pattern order. */
  function MatchLists(ps: seq<SkillPattern>, lowerJob: string): (r: seq<seq<string>>)
    ensures |r| == |ps| && forall i :: 0 <= i < |ps| ==> r[i] == PatternMatches(ps[i], lowerJob)
  {
    seq(|ps|, i requires 0 <= i < |ps| => PatternMatches(ps[i], lowerJob))
  }

  /** The lists one after the other. */
  function Flatten(xss: seq<seq<string>>): seq<string> {
    if xss == [] then [] else Flatten(xss[..|xss| - 1]) + xss[|xss| - 1]
  }

  /** `extractSkillKeywords`: the skill `Set` in insertion order. */
  function SkillKeywords(jobDescription: string): seq<string> {
    Dedup(Flatten(MatchLists(SkillPatterns, Lower(jobDescription))))
  }

  lemma {:induction false} FlattenMembership(xss: seq<seq<string>>, k: string)
    ensures k in Flatten(xss) <==> exists i :: 0 <= i < |xss| && k in xss[i]
    decreases |xss|
  {
    if xss != [] {
      var front := xss[..|xss| - 1];
      FlattenMembership(front, k);
      if k in Flatten(front) {
        var i :| 0 <= i < |front| && k in front[i];
        assert xss[i] == front[i];
      }
      if exists i :: 0 <= i < |xss| && k in xss[i] {
        var i :| 0 <= i < |xss| && k in xss[i];
        if i < |front| {
          assert xss[i] == front[i];
        }
      }
    }
  }

  /** Returns the pattern that produced a skill keyword. */
  lemma PatternOf(jobDescription: string, k: string) returns (i: nat)
    requires k in SkillKeywords(jobDescription)
    ensures i < |SkillPatterns| && k in PatternMatches(SkillPatterns[i], Lower(jobDescription))
  {
    var lists := MatchLists(SkillPatterns, Lower(jobDescription));
    DedupIsInsertionOrderedSet(Flatten(lists));
    FlattenMembership(lists, k);
    i :| 0 <= i < |lists| && k in lists[i];
  }

  lemma LowerInfix(hay: string, k: string)
    requires IsLowerText(hay) && Contains(hay, k)
    ensures IsLowerText(k)
  {
    ContainsIffOccurs(hay, k);
    var i :| OccursAt(hay, k, i);
    forall j | 0 <= j < |k|
      ensures !IsUpper(k[j])
    {
      assert k[j] == hay[i + j];
    }
  }

  /**
   * Skill keywords behave as a `Set` filled pattern by pattern: no duplicates, and every match
   * of every pattern is among them (their order is the first-occurrence order that
   * `DedupIsInsertionOrderedSet` states of `Dedup`).
   */
  lemma SkillKeywordsAreSet(jobDescription: string, i: nat, k: string)
    requires i < |SkillPatterns| && k in PatternMatches(SkillPatterns[i], Lower(jobDescription))
    ensures NoDuplicates(SkillKeywords(jobDescription))
    ensures k in SkillKeywords(jobDescription)
  {
    var lists := MatchLists(SkillPatterns, Lower(jobDescription));
    DedupIsInsertionOrderedSet(Flatten(lists));
    FlattenMembership(lists, k);
  }

  /**
   * Conversely, each skill keyword is lower-case, occurs in the lower-cased job description,
   * and is either a clause introduced by a skill cue or a term of one of the two vocabularies.
   */
  lemma SkillKeywordsOrigin(jobDescription: string, k: string)
    requires k in SkillKeywords(jobDescription)
    ensures IsLowerText(k) && Contains(Lower(jobDescription), k)
    ensures IsCueClause(k) || k in SkillVocabulary || k in FrameworkVocabulary
  {
    var lower := Lower(jobDescription);
    var i := PatternOf(jobDescription, k);
    PatternMatchOrigin(SkillPatterns[i], lower, k);
    LowerIsLower(jobDescription);
    LowerInfix(lower, k);
  }

  lemma FlattenSnoc(xss: seq<seq<string>>, xs: seq<string>)
    ensures Flatten(xss + [xs]) == Flatten(xss) + xs
  {
    assert (xss + [xs])[..|xss|] == xss;
  }

  lemma DedupSnoc(xs: seq<string>, x: string)
    ensures Dedup(xs + [x]) == if x in Dedup(xs) then Dedup(xs) else Dedup(xs) + [x]
  {
    assert (xs + [x])[..|xs|] == xs;
  }

  /** `matches.forEach(match => skills.add(match))` on a set holding `Dedup(before)`. */
  method AddAll(ghost before: seq<string>, skills: seq<string>, matches: seq<string>) returns (r: seq<string>)
    requires skills == Dedup(before)
    ensures r == Dedup(before + matches)
  {
    r := skills;
    assert before + matches[..0] == before;
    for m := 0 to |matches|
      invariant r == Dedup(before + matches[..m])
    {
      assert before + matches[..m + 1] == (before + matches[..m]) + [matches[m]];
      DedupSnoc(before + matches[..m], matches[m]);
      if matches[m] !in r {
        r := r + [matches[m]];
      }
    }
    assert matches[..|matches|] == matches;
  }

  /** `extractSkillKeywords`: adds each pattern's matches to a set, pattern by pattern. */
  method ExtractSkillKeywords(jobDescription: string) returns (skills: seq<string>)
    ensures skills == SkillKeywords(jobDescription)
  {
    var lower := Lower(jobDescription);
    ghost var lists := MatchLists(SkillPatterns, lower);
    skills := [];
    for p := 0 to |SkillPatterns|
      invariant skills == Dedup(Flatten(lists[..p]))
    {
      var matches := PatternMatches(SkillPatterns[p], lower);
      skills := AddAll(Flatten(lists[..p]), skills, matches);
      assert lists[..p + 1] == lists[..p] + [matches];
      FlattenSnoc(lists[..p], matches);
    }
    assert lists[..|SkillPatterns|] == lists;
  }

  // ---------------------------------------------------------------- sub-scores

  /** How many keywords occur (case-insensitively) in the already lower-cased text. */
  function CountContained(keywords: seq<string>, lowerText: string): (n: nat)
    ensures n <= |keywords|
  {
    if keywords == [] then 0
    else (if Contains(lowerText, Lower(keywords[0])) then 1 else 0) + CountContained(keywords[1..], lowerText)
  }

  lemma {:induction false} CountContainedExtremes(keywords: seq<string>, lowerText: string)
    ensures (forall k :: k in keywords ==> Contains(lowerText, Lower(k))) ==> CountContained(keywords, lowerText) == |keywords|
    ensures (forall k :: k in keywords ==> !Contains(lowerText, Lower(k))) ==> CountContained(keywords, lowerText) == 0
  {
    if keywords != [] {
      CountContainedExtremes(keywords[1..], lowerText);
    }
  }

  /** `calculateKeywordMatch(keywords, resumeText)`. */
  function SkillMatch(keywords: seq<string>, resume: string): (r: nat)
    ensures r <= 100
  {
    if |keywords| == 0 then 70
    else
      PercentBounds(CountContained(keywords, Lower(resume)), |keywords|);
      Percent(CountContained(keywords, Lower(resume)), |keywords|)
  }

  /**
   * 70 when there are no keywords; otherwise the rounded percentage of keywords found in
   * the résumé: 100 when all are found and 0 when none is.
   */
  lemma SkillMatchFacts(keywords: seq<string>, resume: string)
    ensures |keywords| == 0 ==> SkillMatch(keywords, resume) == 70
    ensures |keywords| > 0 && (forall k :: k in keywords ==> Contains(Lower(resume), Lower(k)))
      ==> SkillMatch(keywords, resume) == 100
    ensures |keywords| > 0 && (forall k :: k in keywords ==> !Contains(Lower(resume), Lower(k)))
      ==> SkillMatch(keywords, resume) == 0
  {
    if |keywords| > 0 {
      CountContainedExtremes(keywords, Lower(resume));
      PercentBounds(CountContained(keywords, Lower(resume)), |keywords|);
    }
  }

  /** The experience tiers of `calculateExperienceMatch`; `10c >= 7r` and `2c >= r` are `c >= 0.7r` and `c >= 0.5r`. */
  function ExperienceTier(required: nat, candidate: nat): (t: nat)
    ensures 40 <= t <= 95
    ensures t == 95 <==> candidate >= required
    ensures t == 80 <==> candidate < required && 10 * candidate >= 7 * required
    ensures t == 60 <==> 10 * candidate < 7 * required && 2 * candidate >= required
    ensures t == 40 <==> 2 * candidate < required
  {
    if candidate >= required then 95
    else if 10 * candidate >= 7 * required then 80
    else if 2 * candidate >= required then 60
    else 40
  }

  /** More candidate years never lower the tier; more required years never raise it. */
  lemma ExperienceTierMonotone(required: nat, required': nat, candidate: nat, candidate': nat)
    requires candidate <= candidate' && required' <= required
    ensures ExperienceTier(required, candidate) <= ExperienceTier(required', candidate')
  {
  }

  /**
   * `calculateExperienceMatch`: 75 when the description states no years; otherwise a tier of
   * the résumé's first figure (0 when it has none) against the required one.
   */
  function ExperienceMatch(jobDescription: string, resume: string): (r: nat)
    ensures 40 <= r <= 95
    ensures var required, candidate := FirstYears(Lower(jobDescription)), FirstYears(Lower(resume)).GetOr(0);
      && (r == 75 <==> required.None?)
      && (r == 95 <==> required.Some? && candidate >= required.value)
      && (r == 80 <==> required.Some? && candidate < required.value && 10 * candidate >= 7 * required.value)
      && (r == 60 <==> required.Some? && 10 * candidate < 7 * required.value && 2 * candidate >= required.value)
      && (r == 40 <==> required.Some? && 2 * candidate < required.value)
  {
    var required := FirstYears(Lower(jobDescription));
    if required.None? then 75
    else ExperienceTier(required.value, FirstYears(Lower(resume)).GetOr(0))
  }

  const EducationRequirements: seq<string> := ["bachelor", "master", "phd", "degree"]

  /** `eduRequirements.find(req => lowerJob.includes(req))`, as the index of the requirement found. */
  function FirstRequirement(lowerJob: string, reqs: seq<string>): (r: Option<nat>)
    ensures r.Some? ==> r.value < |reqs| && Contains(lowerJob, reqs[r.value])
    ensures r.Some? ==> forall k :: 0 <= k < r.value ==> !Contains(lowerJob, reqs[k])
    ensures r.None? <==> forall k :: 0 <= k < |reqs| ==> !Contains(lowerJob, reqs[k])
  {
    if reqs == [] then None
    else if Contains(lowerJob, reqs[0]) then Some(0)
    else
      match FirstRequirement(lowerJob, reqs[1..])
      case None => None
      case Some(k) => Some(k + 1)
  }

  /**
   * `calculateEducationMatch`: 80 when the description names no degree term, 90 when the
   * first term it names is in the résumé, 50 when it is not.
   */
  function EducationMatch(jobDescription: string, resume: string): (r: nat)
    ensures 50 <= r <= 90
    ensures var first := FirstRequirement(Lower(jobDescription), EducationRequirements);
      && (r == 80 <==> first.None?)
      && (r == 90 <==> first.Some? && Contains(Lower(resume), EducationRequirements[first.value]))
      && (r == 50 <==> first.Some? && !Contains(Lower(resume), EducationRequirements[first.value]))
  {
    match FirstRequirement(Lower(jobDescription), EducationRequirements)
    case None => 80
    case Some(i) => if Contains(Lower(resume), EducationRequirements[i]) then 90 else 50
  }

  function TokenSet(tokens: seq<string>): set<string> {
    set t | t in tokens
  }

  lemma TokenSetEmpty(tokens: seq<string>)
    ensures TokenSet(tokens) == {} <==> tokens == []
  {
    if tokens != [] {
      assert tokens[0] in TokenSet(tokens);
    }
  }

  lemma IntersectionNoLarger(a: set<string>, b: set<string>)
    ensures |a * b| <= |a + b|
  {
    assert a * b <= a + b;
    assert |a + b| == |a * b| + |(a + b) - (a * b)|;
  }

  /**
   * `calculateOverallKeywordMatch` with the division guarded: the rounded Jaccard index of
   * the two token sets, in percent, and 0 when both sets are empty.
   */
  function KeywordOverlap(jobTokens: seq<string>, resumeTokens: seq<string>): (r: nat)
    ensures r <= 100
  {
    var j, s := TokenSet(jobTokens), TokenSet(resumeTokens);
    IntersectionNoLarger(j, s);
    if |j + s| == 0 then 0 else
      PercentBounds(|j * s|, |j + s|);
      Percent(|j * s|, |j + s|)
  }

  /**
   * The same computation as the source writes it, with no guard: `None` stands for the
   * NaN that `0 / 0` produces when both token lists are empty.
   */
  function KeywordOverlapAsWritten(jobTokens: seq<string>, resumeTokens: seq<string>): (r: Option<nat>)
    ensures r.None? <==> jobTokens == [] && resumeTokens == []
  {
    var j, s := TokenSet(jobTokens), TokenSet(resumeTokens);
    TokenSetEmpty(jobTokens);
    TokenSetEmpty(resumeTokens);
    if |j + s| == 0 then
      None
    else
      Some(Percent(|j * s|, |j + s|))
  }

  /**
   * The guarded overlap agrees with the unguarded one wherever that one is a number, and is
   * the rounded Jaccard percentage: 0 for disjoint token sets, 100 for equal non-empty ones.
   */
  lemma KeywordOverlapFacts(jobTokens: seq<string>, resumeTokens: seq<string>)
    ensures KeywordOverlapAsWritten(jobTokens, resumeTokens).Some? ==>
      KeywordOverlapAsWritten(jobTokens, resumeTokens).value == KeywordOverlap(jobTokens, resumeTokens)
    ensures KeywordOverlapAsWritten(jobTokens, resumeTokens).None? ==> KeywordOverlap(jobTokens, resumeTokens) == 0
    ensures TokenSet(jobTokens) !! TokenSet(resumeTokens) ==> KeywordOverlap(jobTokens, resumeTokens) == 0
    ensures TokenSet(jobTokens) == TokenSet(resumeTokens) && jobTokens != [] ==>
      KeywordOverlap(jobTokens, resumeTokens) == 100
  {
    var j, s := TokenSet(jobTokens), TokenSet(resumeTokens);
    IntersectionNoLarger(j, s);
    if |j + s| > 0 {
      PercentBounds(|j * s|, |j + s|);
      if j !! s {
        assert j * s == {};
      }
      if j == s {
        assert j * s == j + s;
      }
    }
  }

  /** `Math.round(skill * 0.4 + exp * 0.3 + edu * 0.15 + kw * 0.15)`, computed exactly. */
  function MatchScore(skill: nat, exp: nat, edu: nat, kw: nat): nat {
    RoundHalfUp(40 * skill + 30 * exp + 15 * edu + 15 * kw, 100)
  }

  /**
   * The overall score is the weighted sum rounded to the nearest integer (halves up), and
   * stays within [0, 100] when every sub-score does.
   */
  lemma MatchScoreFacts(skill: nat, exp: nat, edu: nat, kw: nat)
    requires skill <= 100 && exp <= 100 && edu <= 100 && kw <= 100
    ensures 0 <= MatchScore(skill, exp, edu, kw) <= 100
    ensures 100 * MatchScore(skill, exp, edu, kw) - 50 <= 40 * skill + 30 * exp + 15 * edu + 15 * kw
    ensures 40 * skill + 30 * exp + 15 * edu + 15 * kw < 100 * MatchScore(skill, exp, edu, kw) + 50
  {
  }

  // ---------------------------------------------------------------- text generation

  const SkillStrength := "Strong technical skills alignment with job requirements"
  const ExperienceStrength := "Experience level matches job expectations well"
  const EducationStrength := "Educational background aligns with position requirements"
  const GenericStrength := "Resume shows relevant background for the position"

  const SkillImprovement := "Consider highlighting more technical skills mentioned in the job description"
  const ExperienceImprovement := "Emphasize relevant experience and quantify achievements"
  const EducationImprovement := "Consider adding relevant certifications or continuing education"

  const Recommendations: seq<string> := [
    "Use keywords from the job description throughout your resume",
    "Quantify your achievements with specific metrics and results",
    "Tailor your summary to highlight the most relevant experience",
    "Include specific technologies and methodologies mentioned in the job posting"
  ]

  const ExcellentSummary := "Excellent match! Your resume aligns very well with the job requirements."
  const GoodSummary := "Good match with some areas for improvement to strengthen your application."
  const ModerateSummary := "Moderate match. Consider tailoring your resume to better highlight relevant experience."

  /** The sentences earned by sub-scores at or above 80, in the order skill, experience, education. */
  function QualifyingStrengths(skill: int, exp: int, edu: int): seq<string> {
    (if skill >= 80 then [SkillStrength] else [])
    + (if exp >= 80 then [ExperienceStrength] else [])
    + (if edu >= 80 then [EducationStrength] else [])
  }

  /** The strengths list: the qualifying sentences, or the generic one when none qualifies. */
  function Strengths(skill: int, exp: int, edu: int): seq<string> {
    var q := QualifyingStrengths(skill, exp, edu);
    if q == [] then [GenericStrength] else q
  }

  /** The improvements list: one sentence per sub-score below 70, same order. */
  function Improvements(skill: int, exp: int, edu: int): seq<string> {
    (if skill < 70 then [SkillImprovement] else [])
    + (if exp < 70 then [ExperienceImprovement] else [])
    + (if edu < 70 then [EducationImprovement] else [])
  }

  /** The feedback sentences are pairwise different. */
  lemma FeedbackSentencesDistinct()
    ensures SkillStrength != ExperienceStrength && SkillStrength != EducationStrength
      && ExperienceStrength != EducationStrength
    ensures GenericStrength != SkillStrength && GenericStrength != ExperienceStrength
      && GenericStrength != EducationStrength
    ensures SkillImprovement != ExperienceImprovement && SkillImprovement != EducationImprovement
      && ExperienceImprovement != EducationImprovement
  {
  }

  /**
   * One to three strengths; each dimension's sentence is present exactly when its score is at
   * least 80, and the generic sentence exactly when no score is, in the order skill,
   * experience, education.
   */
  lemma StrengthsFacts(skill: int, exp: int, edu: int)
    ensures 1 <= |Strengths(skill, exp, edu)| <= 3
    ensures SkillStrength in Strengths(skill, exp, edu) <==> skill >= 80
    ensures ExperienceStrength in Strengths(skill, exp, edu) <==> exp >= 80
    ensures EducationStrength in Strengths(skill, exp, edu) <==> edu >= 80
    ensures Strengths(skill, exp, edu) == [GenericStrength] <==> skill < 80 && exp < 80 && edu < 80
    ensures skill >= 80 && exp >= 80 && edu >= 80 ==>
      Strengths(skill, exp, edu) == [SkillStrength, ExperienceStrength, EducationStrength]
  {
    FeedbackSentencesDistinct();
  }

  /** Improvements are the dimensions below 70, at most three, in the same order. */
  lemma ImprovementsFacts(skill: int, exp: int, edu: int)
    ensures |Improvements(skill, exp, edu)| <= 3
    ensures SkillImprovement in Improvements(skill, exp, edu) <==> skill < 70
    ensures ExperienceImprovement in Improvements(skill, exp, edu) <==> exp < 70
    ensures EducationImprovement in Improvements(skill, exp, edu) <==> edu < 70
    ensures Improvements(skill, exp, edu) == [] <==> skill >= 70 && exp >= 70 && edu >= 70
  {
    FeedbackSentencesDistinct();
  }

  /** `generateStrengths`: conditional pushes onto a local list. */
  method GenerateStrengths(skill: int, exp: int, edu: int) returns (strengths: seq<string>)
    ensures strengths == Strengths(skill, exp, edu)
  {
    strengths := [];
    if skill >= 80 { strengths := strengths + [SkillStrength]; }
    if exp >= 80 { strengths := strengths + [ExperienceStrength]; }
    if edu >= 80 { strengths := strengths + [EducationStrength]; }
    if |strengths| == 0 { strengths := strengths + [GenericStrength]; }
  }

  /** `generateImprovements`: conditional pushes onto a local list. */
  method GenerateImprovements(skill: int, exp: int, edu: int) returns (improvements: seq<string>)
    ensures improvements == Improvements(skill, exp, edu)
  {
    improvements := [];
    if skill < 70 { improvements := improvements + [SkillImprovement]; }
    if exp < 70 { improvements := improvements + [ExperienceImprovement]; }
    if edu < 70 { improvements := improvements + [EducationImprovement]; }
  }

  /** `generateRecommendations`: four fixed, distinct sentences whatever the two texts. */
  function GenerateRecommendations(jobDescription: string, resume: string): (r: seq<string>)
    ensures |r| == 4
    ensures forall i, j :: 0 <= i < j < |r| ==> r[i] != r[j]
  {
    Recommendations
  }

  /** `generateSummary`: three tiers of the overall score (the other two arguments are unused). */
  function GenerateSummary(match_: int, skill: int, exp: int): string {
    if match_ >= 80 then ExcellentSummary
    else if match_ >= 60 then GoodSummary
    else ModerateSummary
  }

  // ---------------------------------------------------------------- the analysis

  /** The analyser's result record. */
  datatype Report = Report(
    matchScore: nat,
    skillMatch: nat,
    experienceMatch: nat,
    educationMatch: nat,
    keywordMatch: nat,
    strengths: seq<string>,
    improvements: seq<string>,
    recommendations: seq<string>,
    summary: string)

  /** The object literal `analyzeMatch` returns, built from the four sub-scores. */
  function BuildReport(skill: nat, exp: nat, edu: nat, kw: nat, recommendations: seq<string>): Report {
    var overall := MatchScore(skill, exp, edu, kw);
    Report(overall, skill, exp, edu, kw,
      Strengths(skill, exp, edu),
      Improvements(skill, exp, edu),
      recommendations,
      GenerateSummary(overall, skill, exp))
  }

  /** `analyzeMatch` as one expression over the two raw texts. */
  function Analyze(jobDescription: string, resume: string): Report {
    BuildReport(
      SkillMatch(SkillKeywords(jobDescription), resume),
      ExperienceMatch(jobDescription, resume),
      EducationMatch(jobDescription, resume),
      KeywordOverlap(Tokenize(Lower(jobDescription)), Tokenize(Lower(resume))),
      GenerateRecommendations(jobDescription, resume))
  }

  /** `analyzeMatch`: computes the sub-scores, then assembles the report. */
  method AnalyzeMatch(jobDescription: string, resume: string) returns (r: Report)
    ensures r == Analyze(jobDescription, resume)
  {
    var jobTokens := Tokenize(Lower(jobDescription));
    var resumeTokens := Tokenize(Lower(resume));
    var skillKeywords := ExtractSkillKeywords(jobDescription);
    var skill := SkillMatch(skillKeywords, resume);
    var exp := ExperienceMatch(jobDescription, resume);
    var edu := EducationMatch(jobDescription, resume);
    var kw := KeywordOverlap(jobTokens, resumeTokens);
    var overall := MatchScore(skill, exp, edu, kw);
    var strengths := GenerateStrengths(skill, exp, edu);
    var improvements := GenerateImprovements(skill, exp, edu);
    r := Report(overall, skill, exp, edu, kw, strengths, improvements,
      GenerateRecommendations(jobDescription, resume), GenerateSummary(overall, skill, exp));
  }

  /**
   * A report built from sub-scores in [0, 100]: the overall score is in [0, 100] and is the
   * 40/30/15/15 weighted sum rounded half up; 1–3 strengths and at most three improvements;
   * the summary tier follows the overall score.
   */
  lemma BuildReportFacts(skill: nat, exp: nat, edu: nat, kw: nat, recommendations: seq<string>)
    requires skill <= 100 && exp <= 100 && edu <= 100 && kw <= 100
    ensures var r := BuildReport(skill, exp, edu, kw, recommendations);
      && r.matchScore <= 100
      && 100 * r.matchScore - 50 <= 40 * skill + 30 * exp + 15 * edu + 15 * kw < 100 * r.matchScore + 50
      && 1 <= |r.strengths| <= 3 && |r.improvements| <= 3
      && (r.summary == ExcellentSummary <==> r.matchScore >= 80)
      && (r.summary == GoodSummary <==> 60 <= r.matchScore < 80)
      && (r.summary == ModerateSummary <==> r.matchScore < 60)
  {
    MatchScoreFacts(skill, exp, edu, kw);
    StrengthsFacts(skill, exp, edu);
    ImprovementsFacts(skill, exp, edu);
  }

  /**
   * Every analysis: five scores in [0, 100], the overall one the rounded weighted sum of the
   * other four; 1–3 strengths, at most three improvements, four recommendations.
   */
  lemma AnalyzeFacts(jobDescription: string, resume: string)
    ensures var r := Analyze(jobDescription, resume);
      && r.skillMatch <= 100 && 40 <= r.experienceMatch <= 95 && 50 <= r.educationMatch <= 90
      && r.keywordMatch <= 100 && r.matchScore <= 100
      && 100 * r.matchScore - 50
        <= 40 * r.skillMatch + 30 * r.experienceMatch + 15 * r.educationMatch + 15 * r.keywordMatch
        < 100 * r.matchScore + 50
      && 1 <= |r.strengths| <= 3 && |r.improvements| <= 3 && |r.recommendations| == 4
  {
    var skill := SkillMatch(SkillKeywords(jobDescription), resume);
    var exp := ExperienceMatch(jobDescription, resume);
    var edu := EducationMatch(jobDescription, resume);
    var kw := KeywordOverlap(Tokenize(Lower(jobDescription)), Tokenize(Lower(resume)));
    BuildReportFacts(skill, exp, edu, kw, GenerateRecommendations(jobDescription, resume));
  }

  /** No "N years" in the job description: experience scores 75 whatever the résumé says. */
  lemma ExperienceDefault(jobDescription: string, resume: string)
    requires FirstYears(Lower(jobDescription)) == None
    ensures Analyze(jobDescription, resume).experienceMatch == 75
  {
  }

  /** The job asks for `required` years and the résumé's first figure is at least that: 95. */
  lemma ExperienceMet(jobDescription: string, resume: string, required: nat, candidate: nat)
    requires FirstYears(Lower(jobDescription)) == Some(required)
    requires FirstYears(Lower(resume)) == Some(candidate) && candidate >= required
    ensures Analyze(jobDescription, resume).experienceMatch == 95
  {
  }

  /** A résumé without any digit is read as zero years. */
  lemma ExperienceWithoutFigures(jobDescription: string, resume: string, required: nat)
    requires FirstYears(Lower(jobDescription)) == Some(required) && required > 0
    requires forall i :: 0 <= i < |resume| ==> !IsDigit(resume[i])
    ensures Analyze(jobDescription, resume).experienceMatch == 40
  {
    NoDigitsNoYears(Lower(resume));
  }

  /** The job names a degree the résumé never mentions: education scores 50. */
  lemma EducationMissing(jobDescription: string, resume: string, req: nat)
    requires FirstRequirement(Lower(jobDescription), EducationRequirements) == Some(req)
    requires !Contains(Lower(resume), EducationRequirements[req])
    ensures Analyze(jobDescription, resume).educationMatch == 50
  {
  }

  /** No shared token: the overall keyword score is 0. */
  lemma DisjointVocabulary(jobDescription: string, resume: string)
    requires TokenSet(Tokenize(Lower(jobDescription))) !! TokenSet(Tokenize(Lower(resume)))
    ensures Analyze(jobDescription, resume).keywordMatch == 0
  {
    KeywordOverlapFacts(Tokenize(Lower(jobDescription)), Tokenize(Lower(resume)));
  }

  /** All three rule-based scores at least 80: exactly three strengths and no improvement. */
  lemma StrongCandidate(jobDescription: string, resume: string)
    requires var r := Analyze(jobDescription, resume);
      r.skillMatch >= 80 && r.experienceMatch >= 80 && r.educationMatch >= 80
    ensures |Analyze(jobDescription, resume).strengths| == 3
    ensures Analyze(jobDescription, resume).improvements == []
  {
    var r := Analyze(jobDescription, resume);
    StrengthsFacts(r.skillMatch, r.experienceMatch, r.educationMatch);
    ImprovementsFacts(r.skillMatch, r.experienceMatch, r.educationMatch);
  }

  /** Text without a word character has no token, so the unguarded overlap divides 0 by 0. */
  lemma PunctuationOnlyOverlapIsNaN(jobDescription: string, resume: string)
    requires forall i :: 0 <= i < |jobDescription| ==> !IsWordChar(jobDescription[i])
    requires forall i :: 0 <= i < |resume| ==> !IsWordChar(resume[i])
    ensures KeywordOverlapAsWritten(Tokenize(Lower(jobDescription)), Tokenize(Lower(resume))) == None
    ensures KeywordOverlap(Tokenize(Lower(jobDescription)), Tokenize(Lower(resume))) == 0
  {
    TokenizeNoWordChars(Lower(jobDescription));
    TokenizeNoWordChars(Lower(resume));
  }

  // ---------------------------------------------------------------- the report as written

  /**
   * The report `analyzeMatch` returns as written, where the Jaccard ratio can be NaN: `None`
   * stands for NaN in the keyword score and in the overall score computed from it.
   */
  datatype ReportAsWritten = ReportAsWritten(
    matchScore: Option<nat>,
    skillMatch: nat,
    experienceMatch: nat,
    educationMatch: nat,
    keywordMatch: Option<nat>,
    strengths: seq<string>,
    improvements: seq<string>,
    recommendations: seq<string>,
    summary: string)

  /** `generateSummary` on a possibly NaN score: both comparisons with NaN are false. */
  function SummaryAsWritten(match_: Option<nat>, skill: int, exp: int): string {
    if match_.None? then ModerateSummary else GenerateSummary(match_.value, skill, exp)
  }

  /** `analyzeMatch` with the unguarded division of `calculateOverallKeywordMatch`. */
  function AnalyzeAsWritten(jobDescription: string, resume: string): ReportAsWritten {
    var skill := SkillMatch(SkillKeywords(jobDescription), resume);
    var exp := ExperienceMatch(jobDescription, resume);
    var edu := EducationMatch(jobDescription, resume);
    var kw := KeywordOverlapAsWritten(Tokenize(Lower(jobDescription)), Tokenize(Lower(resume)));
    var overall := if kw.None? then None else Some(MatchScore(skill, exp, edu, kw.value));
    ReportAsWritten(overall, skill, exp, edu, kw,
      Strengths(skill, exp, edu), Improvements(skill, exp, edu),
      GenerateRecommendations(jobDescription, resume), SummaryAsWritten(overall, skill, exp))
  }

  /**
   * Where the written ratio is a number, the program's report is the corrected one. Where it
   * is NaN (neither text has a token), the overall score is NaN too and the summary is the
   * moderate one whatever the other scores, while the corrected keyword score is 0.
   */
  lemma AnalyzeAsWrittenAgrees(jobDescription: string, resume: string)
    ensures var w, r := AnalyzeAsWritten(jobDescription, resume), Analyze(jobDescription, resume);
      && (w.keywordMatch.None? <==> Tokenize(Lower(jobDescription)) == [] && Tokenize(Lower(resume)) == [])
      && (w.keywordMatch.Some? ==>
            w == ReportAsWritten(Some(r.matchScore), r.skillMatch, r.experienceMatch, r.educationMatch,
                                 Some(r.keywordMatch), r.strengths, r.improvements, r.recommendations, r.summary))
      && (w.keywordMatch.None? ==>
            w.matchScore.None? && w.summary == ModerateSummary && r.keywordMatch == 0)
  {
    KeywordOverlapFacts(Tokenize(Lower(jobDescription)), Tokenize(Lower(resume)));
  }

  predicate NoWordChars(s: string) {
    forall i :: 0 <= i < |s| ==> !IsWordChar(s[i])
  }

  /** Lowering leaves a text without word characters unchanged in that respect, and digit-free. */
  lemma LowerNoWordChars(s: string)
    requires NoWordChars(s)
    ensures NoWordChars(Lower(s))
    ensures forall i :: 0 <= i < |Lower(s)| ==> !IsDigit(Lower(s)[i])
  {
  }

  /** A text without word characters contains nothing that starts with one. */
  lemma NoWordCharsContains(hay: string, needle: string)
    requires NoWordChars(hay) && |needle| > 0 && IsWordChar(needle[0])
    ensures !Contains(hay, needle)
  {
    ContainsIffOccurs(hay, needle);
    forall i | 0 <= i && i + |needle| <= |hay| ensures !OccursAt(hay, needle, i) {
      assert hay[i..i + |needle|][0] == hay[i];
    }
  }

  /** Every skill cue and vocabulary term starts with a letter. */
  lemma SkillTermStartsWithLetter(k: string)
    requires IsCueClause(k) || k in SkillVocabulary || k in FrameworkVocabulary
    ensures |k| > 0 && 'a' <= k[0] <= 'z'
  {
    if IsCueClause(k) {
      var c :| 0 <= c < |SkillCues| && IsClauseOf(k, SkillCues[c]);
      assert SkillCues[c][0] == k[0];
    }
  }

  /** A description without word characters yields no skill keyword. */
  lemma NoWordCharsNoSkills(jobDescription: string)
    requires NoWordChars(jobDescription)
    ensures SkillKeywords(jobDescription) == []
  {
    LowerNoWordChars(jobDescription);
    var keywords := SkillKeywords(jobDescription);
    if keywords != [] {
      SkillKeywordsOrigin(jobDescription, keywords[0]);
      SkillTermStartsWithLetter(keywords[0]);
      NoWordCharsContains(Lower(jobDescription), keywords[0]);
      assert false;
    }
  }

  /** A description without word characters names no degree term. */
  lemma NoWordCharsNoRequirement(jobDescription: string)
    requires NoWordChars(jobDescription)
    ensures FirstRequirement(Lower(jobDescription), EducationRequirements) == None
  {
    LowerNoWordChars(jobDescription);
    forall k | 0 <= k < |EducationRequirements|
      ensures !Contains(Lower(jobDescription), EducationRequirements[k])
    {
      assert 'a' <= EducationRequirements[k][0] <= 'z';
      NoWordCharsContains(Lower(jobDescription), EducationRequirements[k]);
    }
  }

  /** Texts without word characters: skill 70, experience 75, education 80 and no token. */
  lemma NoWordCharsSubScores(jobDescription: string, resume: string)
    requires NoWordChars(jobDescription) && NoWordChars(resume)
    ensures SkillMatch(SkillKeywords(jobDescription), resume) == 70
    ensures ExperienceMatch(jobDescription, resume) == 75
    ensures EducationMatch(jobDescription, resume) == 80
    ensures Tokenize(Lower(jobDescription)) == [] && Tokenize(Lower(resume)) == []
  {
    NoWordCharsNoSkills(jobDescription);
    LowerNoWordChars(jobDescription);
    LowerNoWordChars(resume);
    NoDigitsNoYears(Lower(jobDescription));
    NoWordCharsNoRequirement(jobDescription);
    TokenizeNoWordChars(Lower(jobDescription));
    TokenizeNoWordChars(Lower(resume));
  }

  /**
   * Texts without word characters: the program reports NaN for the keyword and overall
   * scores, and so the moderate summary.
   */
  lemma NoWordCharsAsWritten(jobDescription: string, resume: string)
    requires NoWordChars(jobDescription) && NoWordChars(resume)
    ensures var w := AnalyzeAsWritten(jobDescription, resume);
      w.keywordMatch == None && w.matchScore == None && w.summary == ModerateSummary
  {
    NoWordCharsSubScores(jobDescription, resume);
    assert KeywordOverlapAsWritten([], []) == None;
  }

  /** Skill 70, experience 75, education 80 and keyword 0 weigh 62.5, which rounds to 63. */
  lemma DefaultScoresOverall()
    ensures MatchScore(70, 75, 80, 0) == 63
  {
    var n := 40 * 70 + 30 * 75 + 15 * 80 + 15 * 0;
    assert n == 6250;
    var r := RoundHalfUp(n, 100);
    assert 200 * r <= 12600 < 200 * r + 200;
  }

  /**
   * Texts without word characters: the corrected analyser reports keyword score 0, an
   * overall 63 (62.5 rounded up) and the good summary.
   */
  lemma NoWordCharsCorrected(jobDescription: string, resume: string)
    requires NoWordChars(jobDescription) && NoWordChars(resume)
    ensures var r := Analyze(jobDescription, resume);
      r.keywordMatch == 0 && r.matchScore == 63 && r.summary == GoodSummary
  {
    NoWordCharsSubScores(jobDescription, resume);
    KeywordOverlapFacts([], []);
    var recommendations := GenerateRecommendations(jobDescription, resume);
    assert Analyze(jobDescription, resume) == BuildReport(70, 75, 80, 0, recommendations);
    DefaultScoresOverall();
  }

  /**
   * 50 and 100 full stops meet the request's minimum lengths and reach the division by zero:
   * the program stores NaN scores with the moderate summary where the corrected analyser
   * stores 63 with the good one.
   */
  lemma NaNWitness()
    ensures var jd, rs := seq(50, _ => '.'), seq(100, _ => '.');
      && |jd| >= 50 && |rs| >= 100
      && KeywordOverlapAsWritten(Tokenize(Lower(jd)), Tokenize(Lower(rs))) == None
      && AnalyzeAsWritten(jd, rs).matchScore == None && AnalyzeAsWritten(jd, rs).summary == ModerateSummary
      && Analyze(jd, rs).matchScore == 63 && Analyze(jd, rs).summary == GoodSummary
  {
    var jd, rs := seq(50, _ => '.'), seq(100, _ => '.');
    PunctuationOnlyOverlapIsNaN(jd, rs);
    NoWordCharsAsWritten(jd, rs);
    NoWordCharsCorrected(jd, rs);
  }
}
