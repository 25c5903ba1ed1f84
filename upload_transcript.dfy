/**
 * The two computations of components/UploadTranscript.tsx: `estimateSATScores`,
 * which adds keyword-driven increments to a 500/500 baseline and clamps the
 * totals, and the block of the OCR effect that turns the recognised text into
 * `{course, grade}` records with the regular expression
 * `/\b(A\+?|A-|B\+?|B-|C\+?|C-|D\+?|D-|F)\b/`.
 */
module TranscriptUpload {

  import opened Wrappers
  import opened Numbers
  import opened Strings
  import opened Sequences

  datatype CourseRecord = CourseRecord(course: string, grade: string)

  datatype EstimatedScores = EstimatedScores(math: int, english: int)

  const BaseMath := 500
  const BaseEnglish := 500
  const MinScore := 400
  const MaxScore := 800

  // ---------------------------------------------------------------------------
  // estimateSATScores
  // ---------------------------------------------------------------------------

  /** The if/else-if math chain on a lower-cased name: only its first matching branch adds. */
  function MathChainPoints(name: string): int {
    if Contains(name, "calculus") then 60
    else if Contains(name, "pre-calculus") || Contains(name, "precalculus") then 40
    else if Contains(name, "algebra") then 20
    else 0
  }

  /** The physics test, independent of the math chain. */
  function PhysicsPoints(name: string): int {
    if Contains(name, "physics") then 30 else 0
  }

  /** The if/else-if English chain on a lower-cased name. */
  function EnglishChainPoints(name: string): int {
    if Contains(name, "ap english") || Contains(name, "ap lang") || Contains(name, "ap lit") then 40
    else if Contains(name, "journalism") || Contains(name, "writing") then 30
    else if Contains(name, "english") then 10
    else 0
  }

  /** What one course adds to the math score. */
  function MathPoints(course: string): int {
    MathChainPoints(ToLower(course)) + PhysicsPoints(ToLower(course))
  }

  /** What one course adds to the English score. */
  function EnglishPoints(course: string): int {
    EnglishChainPoints(ToLower(course))
  }

  /** The sum of `points` over the names, in order. */
  function Total(names: seq<string>, points: string -> int): int
    decreases |names|
  {
    if names == [] then 0
    else Total(names[..|names| - 1], points) + points(names[|names| - 1])
  }

  /** The course names of the records; the grades play no part in the estimate. */
  function Names(records: seq<CourseRecord>): (names: seq<string>)
    ensures |names| == |records| && forall i :: 0 <= i < |records| ==> names[i] == records[i].course
  {
    seq(|records|, i requires 0 <= i < |records| => records[i].course)
  }

  /** `Math.min(800, Math.max(400, x))`. */
  function Clamp(x: int): int {
    Min(MaxScore, Max(MinScore, x))
  }

  /** The scores `estimateSATScores` returns for the records. */
  function ScoresOf(records: seq<CourseRecord>): EstimatedScores {
    EstimatedScores(Clamp(BaseMath + Total(Names(records), MathPoints)),
                    Clamp(BaseEnglish + Total(Names(records), EnglishPoints)))
  }

  /**
   * `estimateSATScores`: the `forEach` that adds each course's increments,
   * then the clamp; no records leave the baseline, and every score is at
   * least the baseline and at most 800.
   */
  method EstimateSATScores(coursesAndGrades: seq<CourseRecord>) returns (r: EstimatedScores)
    ensures r == ScoresOf(coursesAndGrades)
    ensures coursesAndGrades == [] ==> r == EstimatedScores(500, 500)
    ensures 500 <= r.math <= 800 && 500 <= r.english <= 800
  {
    var mathScore := BaseMath;
    var englishScore := BaseEnglish;
    for i := 0 to |coursesAndGrades|
      invariant mathScore == BaseMath + Total(Names(coursesAndGrades[..i]), MathPoints)
      invariant englishScore == BaseEnglish + Total(Names(coursesAndGrades[..i]), EnglishPoints)
    {
      var courseName := ToLower(coursesAndGrades[i].course);
      ghost var before := (mathScore, englishScore);

      if Contains(courseName, "calculus") {
        mathScore := mathScore + 60;
      } else if Contains(courseName, "pre-calculus") || Contains(courseName, "precalculus") {
        mathScore := mathScore + 40;
      } else if Contains(courseName, "algebra") {
        mathScore := mathScore + 20;
      }

      if Contains(courseName, "physics") {
        mathScore := mathScore + 30;
      }

      if Contains(courseName, "ap english") || Contains(courseName, "ap lang") || Contains(courseName, "ap lit") {
        englishScore := englishScore + 40;
      } else if Contains(courseName, "journalism") || Contains(courseName, "writing") {
        englishScore := englishScore + 30;
      } else if Contains(courseName, "english") {
        englishScore := englishScore + 10;
      }

      assert mathScore == before.0 + MathPoints(coursesAndGrades[i].course);
      assert englishScore == before.1 + EnglishPoints(coursesAndGrades[i].course);
      NamesSnoc(coursesAndGrades, i);
      TotalSnoc(Names(coursesAndGrades[..i]), coursesAndGrades[i].course, MathPoints);
      TotalSnoc(Names(coursesAndGrades[..i]), coursesAndGrades[i].course, EnglishPoints);
    }
    assert coursesAndGrades[..|coursesAndGrades|] == coursesAndGrades;

    mathScore := Min(800, Max(400, mathScore));
    englishScore := Min(800, Max(400, englishScore));
    r := EstimatedScores(mathScore, englishScore);
    ScoresInRange(coursesAndGrades);
  }

  lemma NamesSnoc(records: seq<CourseRecord>, i: nat)
    requires i < |records|
    ensures Names(records[..i + 1]) == Names(records[..i]) + [records[i].course]
  {
  }

  lemma TotalSnoc(names: seq<string>, x: string, points: string -> int)
    ensures Total(names + [x], points) == Total(names, points) + points(x)
  {
    assert (names + [x])[..|names|] == names;
  }

  /**
   * The "pre-calculus"/"precalculus" branch can never add its 40 points:
   * both words contain "calculus", so the branch before it is always taken.
   */
  lemma PrecalculusBranchUnreachable(name: string)
    ensures MathChainPoints(name) == if Contains(name, "calculus") then 60 else if Contains(name, "algebra") then 20 else 0
    ensures MathChainPoints(name) in {0, 20, 60}
  {
    if Contains(name, "pre-calculus") {
      assert "pre-calculus"[4..12] == "calculus";
      ContainsInfix(name, "pre-calculus", 4, 12);
    }
    if Contains(name, "precalculus") {
      assert "precalculus"[3..11] == "calculus";
      ContainsInfix(name, "precalculus", 3, 11);
    }
  }

  /** A course with "precalculus" or "pre-calculus" in its lower-cased name adds 60, as a calculus course does. */
  lemma PrecalculusCountsAsCalculus(course: string)
    requires Contains(ToLower(course), "pre-calculus") || Contains(ToLower(course), "precalculus")
    ensures MathChainPoints(ToLower(course)) == 60
  {
    PrecalculusBranchUnreachable(ToLower(course));
  }

  /** The English increment is exactly one of 40, 30, 10 or nothing, by the first matching keyword group. */
  lemma EnglishIncrementCases(name: string)
    ensures EnglishChainPoints(name) in {0, 10, 30, 40}
    ensures EnglishChainPoints(name) == 40 <==>
      Contains(name, "ap english") || Contains(name, "ap lang") || Contains(name, "ap lit")
    ensures EnglishChainPoints(name) == 0 <==>
      !Contains(name, "ap english") && !Contains(name, "ap lang") && !Contains(name, "ap lit")
      && !Contains(name, "journalism") && !Contains(name, "writing") && !Contains(name, "english")
  {
  }

  /** No course takes anything away: the math increment is between 0 and 90, the English one between 0 and 40. */
  lemma PointsRange(course: string)
    ensures 0 <= MathPoints(course) <= 90
    ensures 0 <= EnglishPoints(course) <= 40
  {
    PrecalculusBranchUnreachable(ToLower(course));
  }

  /** Sums of non-negative increments are non-negative. */
  lemma {:induction false} TotalNonNegative(names: seq<string>, points: string -> int)
    requires forall k :: 0 <= k < |names| ==> points(names[k]) >= 0
    ensures Total(names, points) >= 0
    decreases |names|
  {
    if names != [] {
      TotalNonNegative(names[..|names| - 1], points);
    }
  }

  /** Both scores lie between the baseline and 800, whatever the records. */
  lemma ScoresInRange(records: seq<CourseRecord>)
    ensures 500 <= ScoresOf(records).math <= 800
    ensures 500 <= ScoresOf(records).english <= 800
  {
    var names := Names(records);
    forall k | 0 <= k < |names|
      ensures MathPoints(names[k]) >= 0 && EnglishPoints(names[k]) >= 0
    {
      PointsRange(names[k]);
    }
    TotalNonNegative(names, MathPoints);
    TotalNonNegative(names, EnglishPoints);
  }

  lemma {:induction false} TotalConcat(a: seq<string>, b: seq<string>, points: string -> int)
    ensures Total(a + b, points) == Total(a, points) + Total(b, points)
    decreases |b|
  {
    if b == [] {
      assert a + b == a;
    } else {
      var b' := b[..|b| - 1];
      assert (a + b)[..|a + b| - 1] == a + b';
      TotalConcat(a, b', points);
    }
  }

  /** The order of the names does not matter: only how often each name occurs. */
  lemma {:induction false} TotalPermutation(a: seq<string>, b: seq<string>, points: string -> int)
    requires multiset(a) == multiset(b)
    ensures Total(a, points) == Total(b, points)
    decreases |a|
  {
    if a == [] {
      assert |b| == |multiset(b)| == 0;
    } else {
      var init, x := a[..|a| - 1], a[|a| - 1];
      assert a == init + [x];
      assert multiset(init) == multiset(a) - multiset{x};
      assert x in multiset(b);
      var j :| 0 <= j < |b| && b[j] == x;
      MultisetWithout(b, j);
      TotalWithout(b, j, points);
      TotalPermutation(init, b[..j] + b[j + 1..], points);
    }
  }

  /** Taking one entry out of the names takes its points out of the total. */
  lemma TotalWithout(b: seq<string>, j: nat, points: string -> int)
    requires j < |b|
    ensures Total(b, points) == Total(b[..j] + b[j + 1..], points) + points(b[j])
  {
    var front, x, back := b[..j], b[j], b[j + 1..];
    SplitAt(b, j);
    TotalConcat(front + [x], back, points);
    TotalSnoc(front, x, points);
    TotalConcat(front, back, points);
  }

  lemma SplitAt<T>(b: seq<T>, j: nat)
    requires j < |b|
    ensures b == b[..j] + [b[j]] + b[j + 1..]
  {
  }

  lemma MultisetWithout(b: seq<string>, j: nat)
    requires j < |b|
    ensures multiset(b[..j] + b[j + 1..]) == multiset(b) - multiset{b[j]}
  {
    var x := b[j];
    assert b == b[..j] + [x] + b[j + 1..];
    assert multiset(b) == multiset(b[..j]) + multiset{x} + multiset(b[j + 1..]);
  }

  /**
   * The estimate depends only on the multiset of course names: reordering
   * the records or changing their grades leaves both scores unchanged.
   */
  lemma ScoresDependOnNamesOnly(a: seq<CourseRecord>, b: seq<CourseRecord>)
    requires multiset(Names(a)) == multiset(Names(b))
    ensures ScoresOf(a) == ScoresOf(b)
  {
    TotalPermutation(Names(a), Names(b), MathPoints);
    TotalPermutation(Names(a), Names(b), EnglishPoints);
  }

  // ---------------------------------------------------------------------------
  // The grade-line parser
  // ---------------------------------------------------------------------------

  /** The grade written when a line holds no grade token. */
  const NoGrade := "N/A"

  /**
   * The alternatives of the grade pattern in the order the regular
   * expression tries them; `A\+?` tries "A+" before "A".
   */
  const GradeAlternatives: seq<string> :=
    ["A+", "A", "A-", "B+", "B", "B-", "C+", "C", "C-", "D+", "D", "D-", "F"]

  /** `\b` at position `i`: a word character on exactly one side of it. */
  predicate WordBoundary(s: string, i: int)
    requires 0 <= i <= |s|
  {
    (0 < i && IsWordChar(s[i - 1])) != (i < |s| && IsWordChar(s[i]))
  }

  /** `\b<g>\b` matches at position `p` of `s`. */
  predicate TokenAt(s: string, p: nat, g: string) {
    p + |g| <= |s| && s[p..p + |g|] == g && WordBoundary(s, p) && WordBoundary(s, p + |g|)
  }

  /** A match of the grade pattern: where it starts and which alternative matched. */
  datatype GradeMatch = GradeMatch(pos: nat, alt: nat)

  /** The first alternative, from the `k`-th on, that matches at `p`. */
  function FirstAlternativeAt(s: string, p: nat, k: nat): (r: Option<nat>)
    requires k <= |GradeAlternatives|
    ensures r.Some? ==> k <= r.value < |GradeAlternatives| && TokenAt(s, p, GradeAlternatives[r.value])
    ensures forall i :: k <= i < |GradeAlternatives| && (r.None? || i < r.value) ==> !TokenAt(s, p, GradeAlternatives[i])
    decreases |GradeAlternatives| - k
  {
    if k == |GradeAlternatives| then None
    else if TokenAt(s, p, GradeAlternatives[k]) then Some(k)
    else FirstAlternativeAt(s, p, k + 1)
  }

  /** `s.match(pattern)` from position `p` on: start positions left to right, alternatives in order. */
  function ScanFrom(s: string, p: nat): (r: Option<GradeMatch>)
    requires p <= |s|
    ensures r.Some? ==> p <= r.value.pos <= |s| && r.value.alt < |GradeAlternatives|
    ensures r.Some? ==> TokenAt(s, r.value.pos, GradeAlternatives[r.value.alt])
    ensures r.Some? ==> forall i :: 0 <= i < r.value.alt ==> !TokenAt(s, r.value.pos, GradeAlternatives[i])
    ensures forall q, i :: p <= q <= |s| && (r.None? || q < r.value.pos) && 0 <= i < |GradeAlternatives|
              ==> !TokenAt(s, q, GradeAlternatives[i])
    decreases |s| - p
  {
    match FirstAlternativeAt(s, p, 0)
    case Some(k) => Some(GradeMatch(p, k))
    case None => if p == |s| then None else ScanFrom(s, p + 1)
  }

  /**
   * The scan answers with the leftmost token and, there, with the first
   * alternative in pattern order: a token of alternative `k` at `q`, with no
   * token before `q` and no earlier alternative at `q`, is what it returns.
   */
  lemma ScanFindsFirst(s: string, p: nat, q: nat, k: nat)
    requires p <= q <= |s| && k < |GradeAlternatives| && TokenAt(s, q, GradeAlternatives[k])
    requires forall q', i :: p <= q' < q && 0 <= i < |GradeAlternatives| ==> !TokenAt(s, q', GradeAlternatives[i])
    requires forall i :: 0 <= i < k ==> !TokenAt(s, q, GradeAlternatives[i])
    ensures ScanFrom(s, p) == Some(GradeMatch(q, k))
  {
    var r := ScanFrom(s, p);
    assert r.Some?;
    var m := r.value;
    assert TokenAt(s, m.pos, GradeAlternatives[m.alt]);
    assert m.pos == q;
    assert m.alt == k;
  }

  /** `line.match(gradePattern)`. */
  function MatchGrade(line: string): Option<GradeMatch> {
    ScanFrom(line, 0)
  }

  /** One line of the recognised text as the parser turns it into a record. */
  function ParseLine(line: string): CourseRecord {
    match MatchGrade(line)
    case None => CourseRecord(line, NoGrade)
    case Some(m) =>
      var grade := GradeAlternatives[m.alt];
      CourseRecord(Trim(CollapseSpaces(RemoveFirst(line, grade))), grade)
  }

  /** `line.trim() !== ""`. */
  predicate HasText(line: string) {
    Trim(line) != []
  }

  /** The lines of the recognised text that hold something other than spaces. */
  function TextLines(text: string): seq<string> {
    Filter(Split(text, "\n"), HasText)
  }

  /** The records the parser builds from the recognised text. */
  function ParseTranscript(text: string): seq<CourseRecord> {
    var lines := TextLines(text);
    seq(|lines|, i requires 0 <= i < |lines| => ParseLine(lines[i]))
  }

  /**
   * The parser splits the text at "\n", drops the blank lines and emits one
   * record per remaining line, in order: record `j` comes from line
   * `Kept(...)[j]` of the split.
   */
  lemma ParseTranscriptSpec(text: string)
    ensures var lines, ks, r := Split(text, "\n"), Kept(Split(text, "\n"), HasText), ParseTranscript(text);
      && |r| == |ks|
      && Increasing(ks)
      && (forall k: nat :: k in ks <==> k < |lines| && !IsBlank(lines[k]))
      && (forall j :: 0 <= j < |ks| ==> r[j] == ParseLine(lines[ks[j]]))
  {
    var lines := Split(text, "\n");
    FilterSpec(lines, HasText);
    forall k | 0 <= k < |lines|
      ensures HasText(lines[k]) <==> !IsBlank(lines[k])
    {
      TrimEmptyIffBlank(lines[k]);
    }
  }

  /** A line with no grade token stays whole, with the grade "N/A". */
  lemma NoTokenLine(line: string)
    requires forall q, i :: 0 <= q <= |line| && 0 <= i < |GradeAlternatives| ==> !TokenAt(line, q, GradeAlternatives[i])
    ensures ParseLine(line) == CourseRecord(line, NoGrade)
  {
    if MatchGrade(line).Some? {
      assert false;
    }
  }

  /** A grade of the form "X-" never wins: "X" matches at the same place and is tried first. */
  lemma MinusGradesNeverWin(line: string)
    requires MatchGrade(line).Some?
    ensures GradeAlternatives[MatchGrade(line).value.alt] !in {"A-", "B-", "C-", "D-"}
  {
    var m := MatchGrade(line).value;
    MinusTokenHasLetterToken(line, m.pos, m.alt);
  }

  /** Wherever an "X-" token stands, the "X" token, the alternative just before it, stands too. */
  lemma MinusTokenHasLetterToken(line: string, p: nat, k: nat)
    requires k < |GradeAlternatives| && TokenAt(line, p, GradeAlternatives[k])
    ensures GradeAlternatives[k] in {"A-", "B-", "C-", "D-"} ==> 0 < k && TokenAt(line, p, GradeAlternatives[k - 1])
  {
    var g := GradeAlternatives[k];
    if g in {"A-", "B-", "C-", "D-"} {
      MinusAlternatives(k);
      LetterBeforeDash(line, p, g[0]);
    }
  }

  /** The "X-" alternatives sit just after their "X". */
  lemma MinusAlternatives(k: nat)
    requires k < |GradeAlternatives| && GradeAlternatives[k] in {"A-", "B-", "C-", "D-"}
    ensures 0 < k && |GradeAlternatives[k]| == 2 && GradeAlternatives[k] == [GradeAlternatives[k][0], '-']
    ensures IsWordChar(GradeAlternatives[k][0]) && GradeAlternatives[k - 1] == [GradeAlternatives[k][0]]
  {
  }

  lemma LetterBeforeDash(line: string, p: nat, x: char)
    requires TokenAt(line, p, [x, '-']) && IsWordChar(x)
    ensures TokenAt(line, p, [x])
  {
    assert line[p..p + 2] == [x, '-'];
    assert line[p] == x && line[p + 1] == '-';
    assert line[p..p + 1] == [x];
  }

  /** "A+" is taken only when a word character follows the "+"; otherwise "A" matches. */
  lemma APlusNeedsWordAfter(line: string)
    requires MatchGrade(line).Some? && GradeAlternatives[MatchGrade(line).value.alt] == "A+"
    ensures var p := MatchGrade(line).value.pos; p + 2 < |line| && IsWordChar(line[p + 2])
  {
    var m := MatchGrade(line).value;
    var p := m.pos;
    assert TokenAt(line, p, "A+");
    assert line[p..p + 2] == "A+";
    assert line[p + 1] == line[p..p + 2][1] == '+';
    assert !IsWordChar(line[p + 1]);
    assert WordBoundary(line, p + 2);
  }

  /**
   * A line with a grade token: the grade is the token the scan found first,
   * and the first textual occurrence of that grade, the one the course loses,
   * never lies after the token.
   */
  lemma MatchedGrade(line: string)
    requires MatchGrade(line).Some?
    ensures var m := MatchGrade(line).value; var g := GradeAlternatives[m.alt];
      && ParseLine(line).grade == g
      && g != NoGrade
      && IndexOf(line, g).Some?
      && IndexOf(line, g).value <= m.pos
  {
    MatchedGradeIsToken(line);
    FirstOccurrenceNotAfter(line);
  }

  lemma MatchedGradeIsToken(line: string)
    requires MatchGrade(line).Some?
    ensures ParseLine(line).grade == GradeAlternatives[MatchGrade(line).value.alt]
  {
  }

  lemma FirstOccurrenceNotAfter(line: string)
    requires MatchGrade(line).Some?
    ensures var g := GradeAlternatives[MatchGrade(line).value.alt];
      IndexOf(line, g).Some? && IndexOf(line, g).value <= MatchGrade(line).value.pos && g != NoGrade
  {
    var m := MatchGrade(line).value;
    assert OccursAt(line, GradeAlternatives[m.alt], m.pos);
  }

  /**
   * On a match the course is the line with that first occurrence cut out,
   * its space runs collapsed and its ends trimmed: it neither starts nor
   * ends with a space and holds no two adjacent spaces.
   */
  lemma MatchedCourse(line: string)
    requires MatchGrade(line).Some?
    ensures var g := GradeAlternatives[MatchGrade(line).value.alt];
      && IndexOf(line, g).Some?
      && ParseLine(line).course == Trim(CollapseSpaces(line[..IndexOf(line, g).value] + line[IndexOf(line, g).value + |g|..]))
      && SingleSpaced(ParseLine(line).course)
      && (ParseLine(line).course == [] || (!IsSpace(ParseLine(line).course[0])
            && !IsSpace(ParseLine(line).course[|ParseLine(line).course| - 1])))
  {
    var g := GradeAlternatives[MatchGrade(line).value.alt];
    CourseWithoutFirstOccurrence(line);
    var i := IndexOf(line, g).value;
    var rest := line[..i] + line[i + |g|..];
    TrimmedSingleSpaced(rest);
    TrimEnds(CollapseSpaces(rest));
  }

  lemma CourseWithoutFirstOccurrence(line: string)
    requires MatchGrade(line).Some?
    ensures var g := GradeAlternatives[MatchGrade(line).value.alt];
      IndexOf(line, g).Some?
      && RemoveFirst(line, g) == line[..IndexOf(line, g).value] + line[IndexOf(line, g).value + |g|..]
      && ParseLine(line).course == Trim(CollapseSpaces(RemoveFirst(line, g)))
      && ParseLine(line).course == Trim(CollapseSpaces(line[..IndexOf(line, g).value] + line[IndexOf(line, g).value + |g|..]))
  {
    var m := MatchGrade(line).value;
    var g := GradeAlternatives[m.alt];
    assert OccursAt(line, g, m.pos);
    var i := IndexOf(line, g).value;
    assert RemoveFirst(line, g) == line[..i] + line[i + |g|..];
  }

  lemma TrimmedSingleSpaced(s: string)
    ensures SingleSpaced(Trim(CollapseSpaces(s)))
  {
    var c := CollapseSpaces(s);
    CollapseSpacesSingle(s);
    TrimKeepsInfix(c);
    var a := |c| - |TrimStart(c)|;
    SingleSpacedInfix(c, a, a + |Trim(c)|);
  }

  /** Every alternative of the grade pattern starts with one of the five grade letters. */
  lemma AlternativesStartWithGradeLetter()
    ensures forall i :: 0 <= i < |GradeAlternatives| ==>
      |GradeAlternatives[i]| > 0 && GradeAlternatives[i][0] in "ABCDF"
      && (|GradeAlternatives[i]| == 1 || (|GradeAlternatives[i]| == 2 && GradeAlternatives[i][1] in "+-"))
  {
  }

  /** No token starts where no word begins or where no grade letter stands. */
  lemma NoTokenAtPosition(s: string, q: nat)
    requires q <= |s| && (!WordBoundary(s, q) || q == |s| || s[q] !in "ABCDF")
    ensures forall i :: 0 <= i < |GradeAlternatives| ==> !TokenAt(s, q, GradeAlternatives[i])
  {
    AlternativesStartWithGradeLetter();
    forall i | 0 <= i < |GradeAlternatives|
      ensures !TokenAt(s, q, GradeAlternatives[i])
    {
      var g := GradeAlternatives[i];
      if q + |g| <= |s| && WordBoundary(s, q) {
        assert s[q] == s[q..q + |g|][0];
      }
    }
  }

  /** No token starts at a letter that another word character follows. */
  lemma NoTokenInsideWord(s: string, q: nat)
    requires q + 1 < |s| && IsWordChar(s[q]) && IsWordChar(s[q + 1])
    ensures forall i :: 0 <= i < |GradeAlternatives| ==> !TokenAt(s, q, GradeAlternatives[i])
  {
    AlternativesStartWithGradeLetter();
    forall i | 0 <= i < |GradeAlternatives|
      ensures !TokenAt(s, q, GradeAlternatives[i])
    {
      var g := GradeAlternatives[i];
      if |g| == 2 {
        assert s[q..q + 2][1] == s[q + 1];
      }
    }
  }

  /** "AP Biology B": the first "B" of the line is cut out, not the grade token at its end. */
  lemma BiologyExample()
    ensures ParseLine("AP Biology B") == CourseRecord("AP iology B", "B")
  {
    BiologyLine("AP Biology B");
  }

  lemma BiologyLine(line: string)
    requires line == "AP Biology B"
    ensures ParseLine(line) == CourseRecord("AP iology B", "B")
  {
    BiologyToken(line);
    BiologyFirstB(line);
    BiologyCourseText("AP iology B");
    assert GradeAlternatives[4] == "B";
  }

  lemma BiologyCourseText(c: string)
    requires c == "AP iology B"
    ensures Trim(CollapseSpaces(c)) == c
  {
    assert SingleSpaced(c);
    CollapseSpacesFixed(c);
    TrimUnchanged(c);
  }

  /** In "AP Biology B" the only grade token is the final "B"; the "B" of "Biology" is inside a word. */
  lemma BiologyToken(line: string)
    requires line == "AP Biology B"
    ensures MatchGrade(line) == Some(GradeMatch(11, 4))
  {
    forall q, i | 0 <= q < 11 && 0 <= i < |GradeAlternatives|
      ensures !TokenAt(line, q, GradeAlternatives[i])
    {
      if q == 0 || q == 3 {
        NoTokenInsideWord(line, q);
      } else {
        NoTokenAtPosition(line, q);
      }
    }
    assert line[11..12] == GradeAlternatives[4];
    assert TokenAt(line, 11, GradeAlternatives[4]);
    NoTokenInsideWord(line, 3);
    ScanFindsFirst(line, 0, 11, 4);
  }

  lemma BiologyFirstB(line: string)
    requires line == "AP Biology B"
    ensures RemoveFirst(line, "B") == "AP iology B"
  {
    assert OccursAt(line, "B", 3);
    forall j | 0 <= j < 3
      ensures !OccursAt(line, "B", j)
    {
      assert line[j..j + 1][0] == line[j] != 'B';
    }
    assert IndexOf(line, "B") == Some(3);
  }
}
