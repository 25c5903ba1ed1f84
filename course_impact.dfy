/**
 * The course-impact estimator and the resource lookup of lib/courseImpact.ts.
 *
 * `CalculateCourseImpact` and `GetKhanAcademyRecommendations` follow the
 * source statement by statement; each is proved equal to a reference
 * function (`CourseImpactOf`, `KhanAcademyRecommendations`) that reads the
 * same rules off the resource table, and the promised properties are lemmas
 * about those functions. Weights are kept in tenths, so every sum is an
 * exact integer.
 */
module ImpactEstimator {

  import opened Wrappers
  import opened Numbers

  datatype SatResource = SatResource(
    section: string,
    playlistUrl: string,
    relatedCourses: seq<string>,
    description: string)

  datatype CourseImpact = CourseImpact(
    course: string,
    impact: int,
    potentialScoreIncrease: int,
    relatedTopics: seq<string>,
    khanAcademyLinks: seq<string>,
    satSections: seq<string>)

  const ReadingWritingUrl := "https://www.youtube.com/watch?v=zpE-CfCvXiE&list=PL6dL3ACWCL8c_Vw8F0-97LPMr927tkAFV"
  const AlgebraUrl := "https://www.youtube.com/watch?v=fmt6mKBQhVg&list=PL6dL3ACWCL8ebFVL96B5PPrFv4gxckJu8"
  const AdditionalTopicsUrl := "https://www.youtube.com/watch?v=q9_L7aTmbZw&list=PL6dL3ACWCL8cIVmBrzwD8JEy2i9jZUWgA"

  // The section names, course lists and topic lists that the source writes
  // out both in `SAT_RESOURCES` and again in the rules of `calculateCourseImpact`.
  const ReadingWritingSection := "Reading & Writing"
  const HeartOfAlgebraSection := "Heart of Algebra"
  const AdvancedMathSection := "Passport to Advanced Math"
  const DataAnalysisSection := "Problem Solving & Data Analysis"
  const AdditionalTopicsSection := "Additional Topics in Math"

  const ReadingWritingCourses := ["English", "Literature", "Writing"]
  const HeartOfAlgebraCourses := ["Algebra 1", "Algebra 2"]
  const AdvancedMathCourses := ["Algebra 2", "Precalculus"]
  const DataAnalysisCourses := ["Algebra 1", "Algebra 2", "Geometry", "Statistics"]
  const AdditionalTopicsCourses := ["Geometry", "Algebra 2", "Precalculus"]

  const ReadingWritingTopics := ["Reading Comprehension", "Writing Skills", "Grammar"]
  const HeartOfAlgebraTopics := ["Linear Equations", "Systems of Equations", "Functions"]
  const AdvancedMathTopics := ["Quadratic Equations", "Polynomials", "Rational Expressions"]
  const DataAnalysisTopics := ["Data Analysis", "Statistics", "Probability"]
  const AdditionalTopicsTopics := ["Geometry", "Trigonometry", "Complex Numbers"]

  /** `SAT_RESOURCES`: five sections; the first, third and fourth share one playlist. */
  const SatResources: seq<SatResource> := [
    SatResource(ReadingWritingSection, ReadingWritingUrl, ReadingWritingCourses,
      "Comprehensive playlist covering SAT Reading and Writing sections"),
    SatResource(HeartOfAlgebraSection, AlgebraUrl, HeartOfAlgebraCourses,
      "Focused playlist for Heart of Algebra SAT section"),
    SatResource(AdvancedMathSection, ReadingWritingUrl, AdvancedMathCourses,
      "Advanced math topics for SAT"),
    SatResource(DataAnalysisSection, ReadingWritingUrl, DataAnalysisCourses,
      "Data analysis and problem-solving skills"),
    SatResource(AdditionalTopicsSection, AdditionalTopicsUrl, AdditionalTopicsCourses,
      "Geometry, complex numbers, and trigonometry")
  ]

  /**
   * One rule of `calculateCourseImpact`: the courses it reacts to, the
   * section and the link it pushes, the three topics it adds, and its
   * weight in tenths (0.8 is 8).
   */
  datatype SectionRule = SectionRule(
    courses: seq<string>, section: string, link: string, topics: seq<string>, weight: int)

  /** The five rules of `calculateCourseImpact`, in the order the source applies them. */
  const SectionRules: seq<SectionRule> := [
    SectionRule(ReadingWritingCourses, ReadingWritingSection, SatResources[0].playlistUrl, ReadingWritingTopics, 8),
    SectionRule(HeartOfAlgebraCourses, HeartOfAlgebraSection, SatResources[1].playlistUrl, HeartOfAlgebraTopics, 7),
    SectionRule(AdvancedMathCourses, AdvancedMathSection, SatResources[2].playlistUrl, AdvancedMathTopics, 6),
    SectionRule(DataAnalysisCourses, DataAnalysisSection, SatResources[3].playlistUrl, DataAnalysisTopics, 5),
    SectionRule(AdditionalTopicsCourses, AdditionalTopicsSection, SatResources[4].playlistUrl, AdditionalTopicsTopics, 4)
  ]

  /** Every course name some section rule mentions. */
  const KnownCourses: set<string> :=
    {"English", "Literature", "Writing", "Algebra 1", "Algebra 2", "Geometry", "Precalculus", "Statistics"}

  const MaxIncrease := 160
  // ---------------------------------------------------------------------------
  // The impact tier
  // ---------------------------------------------------------------------------

  /** The grade thresholds of the tier chain, lowest first. */
  const TierThresholds: seq<int> := [60, 70, 80, 90]

  /** How many of the first `n` thresholds `g` reaches. */
  function ThresholdsMet(g: int, n: nat): nat
    requires n <= |TierThresholds|
  {
    if n == 0 then 0
    else ThresholdsMet(g, n - 1) + (if g >= TierThresholds[n - 1] then 1 else 0)
  }

  /**
   * The tier of a parsed grade: twenty points per threshold reached, on top
   * of twenty. `None` is `NaN`: every comparison with it is false.
   */
  function ImpactTier(grade: Option<int>): int {
    match grade
    case None => 20
    case Some(g) => 20 + 20 * ThresholdsMet(g, |TierThresholds|)
  }

  /** The number of thresholds a grade reaches, case by case. */
  lemma ThresholdsMetCases(g: int)
    ensures ThresholdsMet(g, |TierThresholds|)
         == if g >= 90 then 4 else if g >= 80 then 3 else if g >= 70 then 2 else if g >= 60 then 1 else 0
  {
    assert ThresholdsMet(g, 1) == if g >= 60 then 1 else 0;
    assert ThresholdsMet(g, 2) == ThresholdsMet(g, 1) + if g >= 70 then 1 else 0;
    assert ThresholdsMet(g, 3) == ThresholdsMet(g, 2) + if g >= 80 then 1 else 0;
    assert ThresholdsMet(g, 4) == ThresholdsMet(g, 3) + if g >= 90 then 1 else 0;
  }

  /** The tier chain of the source, branch by branch; `NaN` falls through to the lowest tier. */
  lemma ImpactTierChain(grade: Option<int>)
    ensures ImpactTier(grade) in {20, 40, 60, 80, 100}
    ensures grade.None? ==> ImpactTier(grade) == 20
    ensures grade.Some? && grade.value >= 90 ==> ImpactTier(grade) == 100
    ensures grade.Some? && 80 <= grade.value < 90 ==> ImpactTier(grade) == 80
    ensures grade.Some? && 70 <= grade.value < 80 ==> ImpactTier(grade) == 60
    ensures grade.Some? && 60 <= grade.value < 70 ==> ImpactTier(grade) == 40
    ensures grade.Some? && grade.value < 60 ==> ImpactTier(grade) == 20
  {
    if grade.Some? { ThresholdsMetCases(grade.value); }
  }

  /** A better grade never gives a lower tier. */
  lemma ImpactTierMonotone(g1: int, g2: int)
    requires g1 <= g2
    ensures ImpactTier(Some(g1)) <= ImpactTier(Some(g2))
  {
    ThresholdsMetCases(g1);
    ThresholdsMetCases(g2);
  }

  // ---------------------------------------------------------------------------
  // The reference definition of calculateCourseImpact
  // ---------------------------------------------------------------------------

  /** The four accumulators of the source: section names, links, topics and weighted points. */
  datatype Accumulators = Accumulators(
    sections: seq<string>, links: seq<string>, topics: seq<string>, increase: int)

  /**
   * One rule applied to the accumulators: when the course is one of the
   * rule's courses, push the section, the link and the topics, and add the
   * rule's share of the impact; otherwise change nothing.
   */
  function Step(rule: SectionRule, course: string, impact: int, acc: Accumulators): Accumulators {
    if course in rule.courses then
      Accumulators(acc.sections + [rule.section], acc.links + [rule.link],
                   acc.topics + rule.topics, acc.increase + impact * rule.weight / 10)
    else acc
  }

  /** The first `n` rules applied in order, starting from empty accumulators. */
  function RulesUpTo(rules: seq<SectionRule>, course: string, impact: int, n: nat): Accumulators
    requires n <= |rules|
  {
    if n == 0 then Accumulators([], [], [], 0)
    else Step(rules[n - 1], course, impact, RulesUpTo(rules, course, impact, n - 1))
  }

  /** What `calculateCourseImpact(course, grade)` returns, with `None` for `null`. */
  function CourseImpactOf(course: string, grade: Option<int>): Option<CourseImpact> {
    var impact := ImpactTier(grade);
    var acc := RulesUpTo(SectionRules, course, impact, |SectionRules|);
    if acc.sections == [] then None
    else Some(CourseImpact(course, impact, Min(acc.increase, MaxIncrease), acc.topics, acc.links, acc.sections))
  }

  // ---------------------------------------------------------------------------
  // calculateCourseImpact, as the source computes it
  // ---------------------------------------------------------------------------

  /** The tier chain at the head of `calculateCourseImpact`. */
  method GradeTier(grade: Option<int>) returns (impact: int)
    ensures impact == ImpactTier(grade)
  {
    impact := 0;
    if grade.Some? && grade.value >= 90 { impact := 100; }
    else if grade.Some? && grade.value >= 80 { impact := 80; }
    else if grade.Some? && grade.value >= 70 { impact := 60; }
    else if grade.Some? && grade.value >= 60 { impact := 40; }
    else { impact := 20; }
    ImpactTierChain(grade);
  }

  /**
   * One of the five section blocks of `calculateCourseImpact`, with its own
   * literals: when the course is in `courses`, push the section, add the
   * weighted points, push the link and push the three topics.
   */
  method ApplySectionRule(course: string, impact: int,
                          courses: seq<string>, section: string, link: string, topics: seq<string>, weight: int,
                          satSections: seq<string>, khanAcademyLinks: seq<string>,
                          relatedTopics: seq<string>, potentialScoreIncrease: int)
    returns (satSections': seq<string>, khanAcademyLinks': seq<string>,
             relatedTopics': seq<string>, potentialScoreIncrease': int)
    ensures Accumulators(satSections', khanAcademyLinks', relatedTopics', potentialScoreIncrease')
         == Step(SectionRule(courses, section, link, topics, weight), course, impact,
                 Accumulators(satSections, khanAcademyLinks, relatedTopics, potentialScoreIncrease))
  {
    satSections', khanAcademyLinks', relatedTopics', potentialScoreIncrease' :=
      satSections, khanAcademyLinks, relatedTopics, potentialScoreIncrease;
    if course in courses {
      satSections' := satSections' + [section];
      potentialScoreIncrease' := potentialScoreIncrease' + impact * weight / 10;
      khanAcademyLinks' := khanAcademyLinks' + [link];
      relatedTopics' := relatedTopics' + topics;
    }
  }

  /** The five rules of the table, unfolded in order. */
  lemma SectionRulesUnfold(course: string, impact: int)
    ensures RulesUpTo(SectionRules, course, impact, |SectionRules|)
         == Step(SectionRules[4], course, impact, Step(SectionRules[3], course, impact,
            Step(SectionRules[2], course, impact, Step(SectionRules[1], course, impact,
            Step(SectionRules[0], course, impact, Accumulators([], [], [], 0))))))
  {
    var empty := Accumulators([], [], [], 0);
    assert RulesUpTo(SectionRules, course, impact, 1) == Step(SectionRules[0], course, impact, empty);
    assert RulesUpTo(SectionRules, course, impact, 2) == Step(SectionRules[1], course, impact, RulesUpTo(SectionRules, course, impact, 1));
    assert RulesUpTo(SectionRules, course, impact, 3) == Step(SectionRules[2], course, impact, RulesUpTo(SectionRules, course, impact, 2));
    assert RulesUpTo(SectionRules, course, impact, 4) == Step(SectionRules[3], course, impact, RulesUpTo(SectionRules, course, impact, 3));
    assert RulesUpTo(SectionRules, course, impact, 5) == Step(SectionRules[4], course, impact, RulesUpTo(SectionRules, course, impact, 4));
  }

  /** `calculateCourseImpact`: the tier chain, then the five section rules in order, then the cap. */
  method CalculateCourseImpact(course: string, grade: Option<int>) returns (r: Option<CourseImpact>)
    ensures r == CourseImpactOf(course, grade)
  {
    var impact := GradeTier(grade);

    var potentialScoreIncrease := 0;
    var satSections: seq<string> := [];
    var relatedTopics: seq<string> := [];
    var khanAcademyLinks: seq<string> := [];

    satSections, khanAcademyLinks, relatedTopics, potentialScoreIncrease :=
      ApplySectionRule(course, impact, ReadingWritingCourses, ReadingWritingSection, SatResources[0].playlistUrl,
                       ReadingWritingTopics, 8, satSections, khanAcademyLinks, relatedTopics, potentialScoreIncrease);
    satSections, khanAcademyLinks, relatedTopics, potentialScoreIncrease :=
      ApplySectionRule(course, impact, HeartOfAlgebraCourses, HeartOfAlgebraSection, SatResources[1].playlistUrl,
                       HeartOfAlgebraTopics, 7, satSections, khanAcademyLinks, relatedTopics, potentialScoreIncrease);
    satSections, khanAcademyLinks, relatedTopics, potentialScoreIncrease :=
      ApplySectionRule(course, impact, AdvancedMathCourses, AdvancedMathSection, SatResources[2].playlistUrl,
                       AdvancedMathTopics, 6, satSections, khanAcademyLinks, relatedTopics, potentialScoreIncrease);
    satSections, khanAcademyLinks, relatedTopics, potentialScoreIncrease :=
      ApplySectionRule(course, impact, DataAnalysisCourses, DataAnalysisSection, SatResources[3].playlistUrl,
                       DataAnalysisTopics, 5, satSections, khanAcademyLinks, relatedTopics, potentialScoreIncrease);
    satSections, khanAcademyLinks, relatedTopics, potentialScoreIncrease :=
      ApplySectionRule(course, impact, AdditionalTopicsCourses, AdditionalTopicsSection, SatResources[4].playlistUrl,
                       AdditionalTopicsTopics, 4, satSections, khanAcademyLinks, relatedTopics, potentialScoreIncrease);
    SectionRulesUnfold(course, impact);
    potentialScoreIncrease := Min(potentialScoreIncrease, MaxIncrease);

    if |satSections| == 0 {
      return None;
    }
    r := Some(CourseImpact(course, impact, potentialScoreIncrease,
                           relatedTopics, khanAcademyLinks, satSections));
  }

  // ---------------------------------------------------------------------------
  // What the rules compute, for any rule table
  // ---------------------------------------------------------------------------

  /** The indices, in order, of the first `n` rules whose courses include `course`. */
  function MatchedUpTo(rules: seq<SectionRule>, course: string, n: nat): (ks: seq<nat>)
    requires n <= |rules|
    ensures forall i :: 0 <= i < |ks| ==> ks[i] < n
  {
    if n == 0 then []
    else MatchedUpTo(rules, course, n - 1) + (if course in rules[n - 1].courses then [n - 1] else [])
  }

  /** `MatchedUpTo` lists exactly the matching rules below `n`, each once, in increasing order. */
  lemma {:induction false} MatchedUpToSpec(rules: seq<SectionRule>, course: string, n: nat)
    requires n <= |rules|
    ensures forall k: nat :: k in MatchedUpTo(rules, course, n) <==> k < n && course in rules[k].courses
    ensures forall i, j :: 0 <= i < j < |MatchedUpTo(rules, course, n)| ==>
      MatchedUpTo(rules, course, n)[i] < MatchedUpTo(rules, course, n)[j]
    decreases n
  {
    if n > 0 {
      MatchedUpToSpec(rules, course, n - 1);
    }
  }

  /** The weighted points of the rules `ks`. */
  function WeightedSum(rules: seq<SectionRule>, impact: int, ks: seq<nat>): int
    requires forall i :: 0 <= i < |ks| ==> ks[i] < |rules|
  {
    if ks == [] then 0
    else WeightedSum(rules, impact, ks[..|ks| - 1]) + impact * rules[ks[|ks| - 1]].weight / 10
  }

  /** Every rule adds three topics. */
  predicate TopicTriples(rules: seq<SectionRule>) {
    forall k :: 0 <= k < |rules| ==> |rules[k].topics| == 3
  }

  /** After `n` rules there is one section and one link, and three topics, per matching rule. */
  lemma {:induction false} RulesUpToLengths(rules: seq<SectionRule>, course: string, impact: int, n: nat)
    requires n <= |rules| && TopicTriples(rules)
    ensures var acc, ks := RulesUpTo(rules, course, impact, n), MatchedUpTo(rules, course, n);
      |acc.sections| == |ks| && |acc.links| == |ks| && |acc.topics| == 3 * |ks|
    decreases n
  {
    if n > 0 {
      RulesUpToLengths(rules, course, impact, n - 1);
    }
  }

  /** After `n` rules the points are the weighted sum of the matching rules. */
  lemma {:induction false} RulesUpToIncrease(rules: seq<SectionRule>, course: string, impact: int, n: nat)
    requires n <= |rules|
    ensures RulesUpTo(rules, course, impact, n).increase == WeightedSum(rules, impact, MatchedUpTo(rules, course, n))
    decreases n
  {
    if n > 0 {
      RulesUpToIncrease(rules, course, impact, n - 1);
      var ks, pks := MatchedUpTo(rules, course, n), MatchedUpTo(rules, course, n - 1);
      if course in rules[n - 1].courses {
        assert ks[..|ks| - 1] == pks;
      } else {
        assert ks == pks;
      }
    }
  }

  /** Appending to a sequence of triples leaves the earlier triples where they were. */
  lemma TriplesAppend<T>(t: seq<T>, u: seq<T>)
    requires |t| % 3 == 0 && |u| == 3
    ensures forall j :: 0 <= j < |t| / 3 ==> (t + u)[3 * j..3 * j + 3] == t[3 * j..3 * j + 3]
    ensures (t + u)[|t|..|t| + 3] == u
  {
  }

  /**
   * After `n` rules entry `j` of the sections, of the links and of the
   * topic triples all come from rule `MatchedUpTo(rules, course, n)[j]`.
   */
  lemma {:induction false} RulesUpToEntries(rules: seq<SectionRule>, course: string, impact: int, n: nat)
    requires n <= |rules| && TopicTriples(rules)
    ensures var acc, ks := RulesUpTo(rules, course, impact, n), MatchedUpTo(rules, course, n);
      |acc.sections| == |ks| && |acc.links| == |ks| && |acc.topics| == 3 * |ks|
      && forall j :: 0 <= j < |ks| ==>
            acc.sections[j] == rules[ks[j]].section
            && acc.links[j] == rules[ks[j]].link
            && acc.topics[3 * j..3 * j + 3] == rules[ks[j]].topics
    decreases n
  {
    RulesUpToLengths(rules, course, impact, n);
    if n > 0 {
      RulesUpToEntries(rules, course, impact, n - 1);
      RulesUpToLengths(rules, course, impact, n - 1);
      if course in rules[n - 1].courses {
        TriplesAppend(RulesUpTo(rules, course, impact, n - 1).topics, rules[n - 1].topics);
      }
    }
  }

  lemma {:induction false} WeightedSumNonNegative(rules: seq<SectionRule>, impact: int, ks: seq<nat>)
    requires forall i :: 0 <= i < |ks| ==> ks[i] < |rules|
    requires forall k :: 0 <= k < |rules| ==> rules[k].weight >= 0
    requires impact >= 0
    ensures WeightedSum(rules, impact, ks) >= 0
    decreases |ks|
  {
    if ks != [] {
      WeightedSumNonNegative(rules, impact, ks[..|ks| - 1]);
    }
  }

  // ---------------------------------------------------------------------------
  // What calculateCourseImpact promises
  // ---------------------------------------------------------------------------

  /**
   * The rules follow `SAT_RESOURCES` entry by entry: rule `k` reacts to the
   * related courses of resource `k`, pushes its section name and its
   * playlist; each adds three topics, with a weight between 0.4 and 0.8.
   */
  lemma SectionRulesMatchResources()
    ensures |SectionRules| == |SatResources| == 5
    ensures TopicTriples(SectionRules)
    ensures forall k :: 0 <= k < |SectionRules| ==>
      && SectionRules[k].courses == SatResources[k].relatedCourses
      && SectionRules[k].section == SatResources[k].section
      && SectionRules[k].link == SatResources[k].playlistUrl
      && 4 <= SectionRules[k].weight <= 8
  {
  }

  /** Every name in `KnownCourses` appears in some rule, and no other name does. */
  lemma KnownCoursesAreRelated(course: string)
    ensures course in KnownCourses <==>
      exists k :: 0 <= k < |SectionRules| && course in SectionRules[k].courses
  {
    if course in KnownCourses {
      if course in ReadingWritingCourses {
        assert course in SectionRules[0].courses;
      } else if course in HeartOfAlgebraCourses {
        assert course in SectionRules[1].courses;
      } else if course == "Statistics" {
        assert course in SectionRules[3].courses;
      } else {
        assert course in SectionRules[4].courses;
      }
    }
  }

  /**
   * `calculateCourseImpact` returns `null` exactly for the courses no rule
   * names; the names are compared exactly, so case and spacing matter.
   */
  lemma CourseImpactNullIff(course: string, grade: Option<int>)
    ensures CourseImpactOf(course, grade).None? <==> course !in KnownCourses
  {
    var impact := ImpactTier(grade);
    assert TopicTriples(SectionRules);
    RulesUpToLengths(SectionRules, course, impact, |SectionRules|);
    MatchedUpToSpec(SectionRules, course, |SectionRules|);
    KnownCoursesAreRelated(course);
    var ks := MatchedUpTo(SectionRules, course, |SectionRules|);
    if ks != [] {
      assert course in SectionRules[ks[0]].courses;
    }
  }

  /**
   * A non-null result carries the course unchanged and the tier of the
   * grade, points that are the weighted sum of the matching rules capped at
   * 160, so between 0 and 160, and one section, one link and three
   * topics for each resource whose related courses include the course, in
   * table order: entry `j` comes from resource `ks[j]`, where `ks` lists
   * the matching resources in increasing order.
   */
  lemma CourseImpactShape(course: string, grade: Option<int>)
    requires CourseImpactOf(course, grade).Some?
    ensures var r, ks := CourseImpactOf(course, grade).value, MatchedUpTo(SectionRules, course, |SectionRules|);
      && r.course == course
      && r.impact == ImpactTier(grade) && r.impact in {20, 40, 60, 80, 100}
      && r.potentialScoreIncrease == Min(WeightedSum(SectionRules, r.impact, ks), MaxIncrease)
      && 0 <= r.potentialScoreIncrease <= MaxIncrease
      && |r.satSections| == |ks| && |r.khanAcademyLinks| == |ks| && |r.relatedTopics| == 3 * |ks|
      && (forall k: nat :: k in ks <==> k < |SatResources| && course in SatResources[k].relatedCourses)
      && (forall i, j :: 0 <= i < j < |ks| ==> ks[i] < ks[j])
      && (forall j :: 0 <= j < |ks| ==>
            r.satSections[j] == SatResources[ks[j]].section
            && r.khanAcademyLinks[j] == SatResources[ks[j]].playlistUrl
            && r.relatedTopics[3 * j..3 * j + 3] == SectionRules[ks[j]].topics)
  {
    var impact := ImpactTier(grade);
    ImpactTierChain(grade);
    SectionRulesMatchResources();
    MatchedUpToSpec(SectionRules, course, |SectionRules|);
    RulesUpToEntries(SectionRules, course, impact, |SectionRules|);
    RulesUpToIncrease(SectionRules, course, impact, |SectionRules|);
    WeightedSumNonNegative(SectionRules, impact, MatchedUpTo(SectionRules, course, |SectionRules|));
  }

  /** "Statistics" with a 95 lands in the top tier, in one section, for 50 points. */
  lemma StatisticsExample()
    ensures CourseImpactOf("Statistics", Some(95))
         == Some(CourseImpact("Statistics", 100, 50, DataAnalysisTopics, [ReadingWritingUrl], [DataAnalysisSection]))
  {
    ImpactTierChain(Some(95));
    SectionRulesUnfold("Statistics", 100);
    var empty := Accumulators([], [], [], 0);
    assert "Statistics" !in SectionRules[0].courses && "Statistics" !in SectionRules[1].courses;
    assert "Statistics" !in SectionRules[2].courses && "Statistics" !in SectionRules[4].courses;
    assert "Statistics" in SectionRules[3].courses;
    assert Step(SectionRules[2], "Statistics", 100, Step(SectionRules[1], "Statistics", 100,
             Step(SectionRules[0], "Statistics", 100, empty))) == empty;
    assert [] + DataAnalysisTopics == DataAnalysisTopics;
    var data := Accumulators([DataAnalysisSection], [ReadingWritingUrl], DataAnalysisTopics, 50);
    assert Step(SectionRules[3], "Statistics", 100, empty) == data;
    assert Step(SectionRules[4], "Statistics", 100, data) == data;
  }

  /** "Algebra 2" at the top tier matches four sections worth 220 points, capped to 160. */
  lemma AlgebraTwoCapped()
    ensures RulesUpTo(SectionRules, "Algebra 2", 100, |SectionRules|).increase == 220
    ensures CourseImpactOf("Algebra 2", Some(100)).Some?
    ensures CourseImpactOf("Algebra 2", Some(100)).value.potentialScoreIncrease == MaxIncrease
  {
    ImpactTierChain(Some(100));
    SectionRulesUnfold("Algebra 2", 100);
  }
  // ---------------------------------------------------------------------------
  // getKhanAcademyRecommendations
  // ---------------------------------------------------------------------------

  /** `topicToSection`: twelve topic keywords, each naming one section. */
  const TopicToSection: map<string, string> := map[
    "Reading" := ReadingWritingSection,
    "Writing" := ReadingWritingSection,
    "Grammar" := ReadingWritingSection,
    "Algebra" := HeartOfAlgebraSection,
    "Equations" := HeartOfAlgebraSection,
    "Functions" := HeartOfAlgebraSection,
    "Data" := DataAnalysisSection,
    "Statistics" := DataAnalysisSection,
    "Probability" := DataAnalysisSection,
    "Geometry" := AdditionalTopicsSection,
    "Trigonometry" := AdditionalTopicsSection,
    "Complex Numbers" := AdditionalTopicsSection
  ]

  /** `resources.find(r => r.section === section)`, looking from entry `k` on. */
  function FindResourceFrom(resources: seq<SatResource>, section: string, k: nat): (r: Option<SatResource>)
    requires k <= |resources|
    ensures r.Some? ==> r.value in resources[k..] && r.value.section == section
    ensures r.None? ==> forall i :: k <= i < |resources| ==> resources[i].section != section
    decreases |resources| - k
  {
    if k == |resources| then None
    else if resources[k].section == section then Some(resources[k])
    else FindResourceFrom(resources, section, k + 1)
  }

  /** `find` returns the first entry with the section asked for. */
  lemma {:induction false} FindFirstMatch(resources: seq<SatResource>, section: string, k: nat, i: nat)
    requires k <= i < |resources| && resources[i].section == section
    requires forall j :: k <= j < i ==> resources[j].section != section
    ensures FindResourceFrom(resources, section, k) == Some(resources[i])
    decreases i - k
  {
    if k < i {
      FindFirstMatch(resources, section, k + 1, i);
    }
  }

  /** The five section names of `SAT_RESOURCES` are pairwise different. */
  lemma SectionsDistinct()
    ensures forall i, j :: 0 <= i < j < |SatResources| ==> SatResources[i].section != SatResources[j].section
  {
    assert ReadingWritingSection[0] == 'R' && HeartOfAlgebraSection[0] == 'H';
    assert AdvancedMathSection[0] == 'P' && AdvancedMathSection[1] == 'a';
    assert DataAnalysisSection[0] == 'P' && DataAnalysisSection[1] == 'r';
    assert AdditionalTopicsSection[0] == 'A';
  }

  /** Looking up the section of entry `k` finds entry `k`. */
  lemma FindSection(k: nat)
    requires k < |SatResources|
    ensures FindResourceFrom(SatResources, SatResources[k].section, 0) == Some(SatResources[k])
  {
    SectionsDistinct();
    FindFirstMatch(SatResources, SatResources[k].section, 0, k);
  }

  /** The playlist one topic contributes, if any. */
  function TopicPlaylist(topic: string): Option<string> {
    if topic in TopicToSection then
      match FindResourceFrom(SatResources, TopicToSection[topic], 0)
      case Some(resource) => Some(resource.playlistUrl)
      case None => None
    else None
  }

  /** The list `recommendations` holds after the `forEach`: one playlist per recognised topic, in order. */
  function Collected(topics: seq<string>): seq<string> {
    if topics == [] then []
    else
      var last := topics[|topics| - 1];
      Collected(topics[..|topics| - 1]) + (if TopicPlaylist(last).Some? then [TopicPlaylist(last).value] else [])
  }

  /** `[...new Set(xs)]`: the first occurrence of each element, in order. */
  function Dedup<T(==)>(xs: seq<T>): seq<T> {
    if xs == [] then []
    else
      var init, last := xs[..|xs| - 1], xs[|xs| - 1];
      Dedup(init) + (if last in init then [] else [last])
  }

  /** What `getKhanAcademyRecommendations(topics)` returns. */
  function KhanAcademyRecommendations(topics: seq<string>): seq<string> {
    Dedup(Collected(topics))
  }

  predicate NoDuplicates<T(==)>(xs: seq<T>) {
    forall i, j :: 0 <= i < j < |xs| ==> xs[i] != xs[j]
  }

  /** The position of the first occurrence of `x` in `xs`. */
  function FirstIndex<T(==)>(xs: seq<T>, x: T): (i: nat)
    requires x in xs
    ensures i < |xs| && xs[i] == x && x !in xs[..i]
  {
    if xs[0] == x then 0
    else
      var i := 1 + FirstIndex(xs[1..], x);
      assert xs[..i] == [xs[0]] + xs[1..][..i - 1];
      i
  }

  /**
   * Deduplication keeps exactly the elements of its input, once each, in
   * the order of their first occurrence.
   */
  lemma {:induction false} DedupSpec<T>(xs: seq<T>)
    ensures NoDuplicates(Dedup(xs))
    ensures forall x :: x in Dedup(xs) <==> x in xs
    ensures forall i, j :: 0 <= i < j < |Dedup(xs)| ==> FirstIndex(xs, Dedup(xs)[i]) < FirstIndex(xs, Dedup(xs)[j])
    decreases |xs|
  {
    if xs != [] {
      var init, last := xs[..|xs| - 1], xs[|xs| - 1];
      DedupSpec(init);
      assert xs == init + [last];
      var d := Dedup(xs);
      forall x | x in init
        ensures FirstIndex(xs, x) == FirstIndex(init, x)
      {
        FirstIndexPrefix(init, last, x);
      }
      if last !in init {
        assert FirstIndex(xs, last) == |init| by { FirstIndexPrefix(init, last, last); }
        forall i | 0 <= i < |d| - 1
          ensures FirstIndex(xs, d[i]) < FirstIndex(xs, last)
        {
          assert d[i] in Dedup(init);
        }
      }
    }
  }

  /** A position holding `x` with no `x` before it is the first index of `x`. */
  lemma {:induction false} FirstIndexUnique<T>(xs: seq<T>, x: T, i: nat)
    requires i < |xs| && xs[i] == x && x !in xs[..i]
    ensures FirstIndex(xs, x) == i
    decreases i
  {
    if i > 0 {
      assert xs[0] == xs[..i][0];
      assert xs[1..][..i - 1] == xs[1..i];
      assert forall y :: y in xs[1..i] ==> y in xs[..i];
      FirstIndexUnique(xs[1..], x, i - 1);
    }
  }

  lemma FirstIndexPrefix<T>(init: seq<T>, last: T, x: T)
    requires x in init + [last]
    ensures x in init ==> FirstIndex(init + [last], x) == FirstIndex(init, x)
    ensures x !in init ==> FirstIndex(init + [last], x) == |init|
  {
    var xs := init + [last];
    if x in init {
      var k := FirstIndex(init, x);
      assert xs[..k] == init[..k];
      FirstIndexUnique(xs, x, k);
    } else {
      assert xs[..|init|] == init;
      FirstIndexUnique(xs, x, |init|);
    }
  }

  lemma {:induction false} CollectedConcat(a: seq<string>, b: seq<string>)
    ensures Collected(a + b) == Collected(a) + Collected(b)
    decreases |b|
  {
    if b != [] {
      var b' := b[..|b| - 1];
      CollectedConcat(a, b');
      assert (a + b)[..|a + b| - 1] == a + b';
    } else {
      assert a + b == a;
    }
  }

  /** Every collected playlist is some topic's playlist, and every recognised topic's playlist is collected. */
  lemma {:induction false} CollectedMembers(topics: seq<string>)
    ensures forall u :: u in Collected(topics) <==> exists t :: t in topics && TopicPlaylist(t) == Some(u)
    decreases |topics|
  {
    if topics != [] {
      var init := topics[..|topics| - 1];
      CollectedMembers(init);
      assert topics == init + [topics[|topics| - 1]];
    }
  }

  /**
   * A recognised topic leads to the playlist of the resource whose section
   * the map names for it; any other topic leads nowhere.
   */
  lemma TopicPlaylistValues(topic: string)
    ensures TopicPlaylist(topic).Some? <==> topic in TopicToSection
    ensures topic in TopicToSection ==>
      exists k :: 0 <= k < |SatResources| && SatResources[k].section == TopicToSection[topic]
               && TopicPlaylist(topic) == Some(SatResources[k].playlistUrl)
  {
    if topic in TopicToSection {
      var section := TopicToSection[topic];
      var k := if section == ReadingWritingSection then 0
               else if section == HeartOfAlgebraSection then 1
               else if section == DataAnalysisSection then 3
               else 4;
      assert SatResources[k].section == section;
      FindSection(k);
    }
  }

  /** The table holds at most three playlists. */
  lemma PlaylistsOfTable()
    ensures forall k :: 0 <= k < |SatResources| ==>
      SatResources[k].playlistUrl in {ReadingWritingUrl, AlgebraUrl, AdditionalTopicsUrl}
    ensures |{ReadingWritingUrl, AlgebraUrl, AdditionalTopicsUrl}| <= 3
  {
  }

  lemma {:induction false} NoDuplicatesBound<T>(xs: seq<T>, s: set<T>)
    requires NoDuplicates(xs)
    requires forall x :: x in xs ==> x in s
    ensures |xs| <= |s|
    decreases |xs|
  {
    if xs != [] {
      var init := xs[..|xs| - 1];
      var last := xs[|xs| - 1];
      assert last !in init;
      NoDuplicatesBound(init, s - {last});
    }
  }

  /**
   * The recommendations hold no duplicate; each is the playlist of a section
   * of the table; a playlist is recommended exactly when some topic that is
   * a key of the table leads to it; so there are at most three, and none
   * for no topics.
   */
  lemma RecommendationsSpec(topics: seq<string>)
    ensures var r := KhanAcademyRecommendations(topics);
      && NoDuplicates(r)
      && (forall u :: u in r <==> exists t :: t in topics && t in TopicToSection && TopicPlaylist(t) == Some(u))
      && (forall u :: u in r ==> exists k :: 0 <= k < |SatResources| && SatResources[k].playlistUrl == u)
      && |r| <= 3
      && (topics == [] ==> r == [])
  {
    var r := KhanAcademyRecommendations(topics);
    DedupSpec(Collected(topics));
    CollectedMembers(topics);
    PlaylistsOfTable();
    forall t | t in topics
      ensures TopicPlaylist(t).Some? ==> t in TopicToSection
      ensures TopicPlaylist(t).Some? ==>
        exists k :: 0 <= k < |SatResources| && SatResources[k].playlistUrl == TopicPlaylist(t).value
    {
      TopicPlaylistValues(t);
    }
    NoDuplicatesBound(r, {ReadingWritingUrl, AlgebraUrl, AdditionalTopicsUrl});
  }

  /** A topic that is not a key of the table, wherever it stands, changes nothing. */
  lemma UnknownTopicIgnored(before: seq<string>, topic: string, after: seq<string>)
    requires topic !in TopicToSection
    ensures KhanAcademyRecommendations(before + [topic] + after) == KhanAcademyRecommendations(before + after)
  {
    CollectedConcat(before + [topic], after);
    CollectedConcat(before, [topic]);
    CollectedConcat(before, after);
    CollectedSingle(topic);
    assert Collected(before + [topic]) == Collected(before);
  }

  lemma CollectedSingle(topic: string)
    ensures Collected([topic]) == if TopicPlaylist(topic).Some? then [TopicPlaylist(topic).value] else []
  {
    assert [topic][..0] == [];
  }

  /** Two topics that lead to the same playlist give that one playlist. */
  lemma SharedPlaylist(a: string, b: string, u: string)
    requires TopicPlaylist(a) == Some(u) && TopicPlaylist(b) == Some(u)
    ensures KhanAcademyRecommendations([a, b]) == [u]
  {
    CollectedConcat([a], [b]);
    CollectedSingle(a);
    CollectedSingle(b);
    assert [a] + [b] == [a, b];
    DedupRepeated(u);
  }

  /** "Reading" leads to the Reading & Writing playlist. */
  lemma ReadingPlaylist()
    ensures TopicPlaylist("Reading") == Some(ReadingWritingUrl)
  {
    FindSection(0);
    assert TopicToSection["Reading"] == SatResources[0].section;
  }

  /** "Data" leads to the Data Analysis section, whose playlist is the Reading & Writing one. */
  lemma DataPlaylist()
    ensures TopicPlaylist("Data") == Some(ReadingWritingUrl)
  {
    FindSection(3);
    assert TopicToSection["Data"] == SatResources[3].section;
  }

  /** "Reading" and "Data" lead to sections that share a playlist: one link results. */
  lemma ReadingAndDataShareLink()
    ensures KhanAcademyRecommendations(["Reading", "Data"]) == [ReadingWritingUrl]
  {
    ReadingPlaylist();
    DataPlaylist();
    SharedPlaylist("Reading", "Data", ReadingWritingUrl);
  }

  lemma DedupRepeated<T>(x: T)
    ensures Dedup([x] + [x]) == [x]
  {
    assert ([x] + [x])[..1] == [x];
    assert [x][..0] == [];
    assert Dedup([x]) == [x];
  }

  /**
   * `getKhanAcademyRecommendations`: the `forEach` that pushes the playlist
   * of every recognised topic, then the `Set` spread that drops repeats.
   */
  method GetKhanAcademyRecommendations(topics: seq<string>) returns (r: seq<string>)
    ensures r == KhanAcademyRecommendations(topics)
  {
    var recommendations: seq<string> := [];
    for i := 0 to |topics|
      invariant recommendations == Collected(topics[..i])
    {
      assert topics[..i + 1][..i] == topics[..i];
      var topic := topics[i];
      if topic in TopicToSection {
        var section := TopicToSection[topic];
        var resource := FindResourceFrom(SatResources, section, 0);
        if resource.Some? {
          recommendations := recommendations + [resource.value.playlistUrl];
        }
      }
    }
    assert topics[..|topics|] == topics;

    r := [];
    for j := 0 to |recommendations|
      invariant r == Dedup(recommendations[..j])
    {
      assert recommendations[..j + 1][..j] == recommendations[..j];
      DedupSpec(recommendations[..j]);
      if recommendations[j] !in r {
        r := r + [recommendations[j]];
      }
    }
    assert recommendations[..|recommendations|] == recommendations;
  }
}
