/**
 * The logic of components/YourStudyPlan.tsx: the pipeline that cuts the
 * model's plan text into days and tasks, the course-impact summary, and the
 * two toggles of the page state (the expanded days and the completed flag of
 * a task).
 */
module StudyPlan {

  import opened Wrappers
  import opened Strings
  import opened Sequences
  import opened ImpactEstimator

  datatype Task = Task(description: string, completed: bool, khanAcademyLink: Option<string>)

  datatype StudyDay = StudyDay(date: string, tasks: seq<Task>)

  /**
   * A saved course record as the page reads it back. `grade` is already what
   * `parseInt(grade.toString())` makes of the stored grade: `None` is `NaN`.
   */
  datatype SavedCourse = SavedCourse(course: string, grade: Option<int>)

  /** The `studyPlanData` payload: the saved records and the plan text. */
  datatype SavedPlan = SavedPlan(coursesAndGrades: seq<SavedCourse>, plan: string)

  const DaySeparator := "\n\n"
  const DefaultTopic := "Study Plan"

  // ---------------------------------------------------------------------------
  // The course-impact summary
  // ---------------------------------------------------------------------------

  /** `calculateCourseImpact` applied to every saved record, `null`s included. */
  function ImpactsOrNull(saved: seq<SavedCourse>): (r: seq<Option<CourseImpact>>)
    ensures |r| == |saved| && forall i :: 0 <= i < |saved| ==> r[i] == CourseImpactOf(saved[i].course, saved[i].grade)
  {
    seq(|saved|, i requires 0 <= i < |saved| => CourseImpactOf(saved[i].course, saved[i].grade))
  }

  /** The impacts the page shows: the map, then the filter that drops the `null`s. */
  function CourseImpacts(saved: seq<SavedCourse>): seq<CourseImpact> {
    Present(ImpactsOrNull(saved))
  }

  /**
   * The summary holds one impact per saved record whose course is one of the
   * courses the rules know, in the order of the records: impact `j` is that
   * of record `ks[j]`, carrying its course and the tier of its grade.
   */
  lemma CourseImpactsSpec(saved: seq<SavedCourse>)
    ensures var r, ks := CourseImpacts(saved), PresentAt(ImpactsOrNull(saved));
      && |r| == |ks|
      && Increasing(ks)
      && (forall k: nat :: k in ks <==> k < |saved| && saved[k].course in KnownCourses)
      && (forall j :: 0 <= j < |ks| ==>
            Some(r[j]) == CourseImpactOf(saved[ks[j]].course, saved[ks[j]].grade)
            && r[j].course == saved[ks[j]].course
            && r[j].impact == ImpactTier(saved[ks[j]].grade))
  {
    var xs := ImpactsOrNull(saved);
    PresentSpec(xs);
    forall k | 0 <= k < |saved|
      ensures xs[k].Some? <==> saved[k].course in KnownCourses
    {
      CourseImpactNullIff(saved[k].course, saved[k].grade);
    }
    var r, ks := Present(xs), PresentAt(xs);
    forall j | 0 <= j < |ks|
      ensures r[j].course == saved[ks[j]].course && r[j].impact == ImpactTier(saved[ks[j]].grade)
    {
      CourseImpactShape(saved[ks[j]].course, saved[ks[j]].grade);
    }
  }

  // ---------------------------------------------------------------------------
  // The plan segmenter
  // ---------------------------------------------------------------------------

  /** The length of a leading `Day\s+[0-9]+:\s*`, if `s` starts with one. */
  function DayMarker(s: string): (r: Option<nat>)
    ensures r.Some? ==> r.value <= |s|
  {
    if |s| >= 3 && s[..3] == "Day" then
      var a := SkipSpaces(s, 3);
      var b := SkipDigits(s, a);
      if a > 3 && b > a && b < |s| && s[b] == ':' then Some(SkipSpaces(s, b + 1)) else None
    else None
  }

  /** The length of a leading `[0-9]+\.\s*`, if `s` starts with one. */
  function NumberMarker(s: string): (r: Option<nat>)
    ensures r.Some? ==> r.value <= |s|
  {
    var b := SkipDigits(s, 0);
    if b > 0 && b < |s| && s[b] == '.' then Some(SkipSpaces(s, b + 1)) else None
  }

  /** What `replace(/^(Day\s+[0-9]+:\s*|[0-9]+\.\s*)/, "")` removes: the first alternative that matches, or nothing. */
  function MarkerLength(s: string): (n: nat)
    ensures n <= |s|
  {
    match DayMarker(s)
    case Some(n) => n
    case None => match NumberMarker(s) case Some(n) => n case None => 0
  }

  /** The topic of a block: its first line trimmed, without its marker, trimmed again. */
  function Topic(firstLine: string): string {
    var line := Trim(firstLine);
    Trim(line[MarkerLength(line)..])
  }

  /** `Day ${index + 1}: ${topic || "Study Plan"}`. */
  function DayLabel(index: nat, topic: string): string {
    "Day " + NatToString(index + 1) + ": " + (if topic == "" then DefaultTopic else topic)
  }

  /**
   * `getKhanAcademyRecommendations(task.split(":")[0]?.split(",") || [])?.[0]`:
   * the first playlist for the comma-separated pieces before the first colon.
   */
  function TaskLink(task: string): Option<string> {
    var recommendations := KhanAcademyRecommendations(TaskTopics(task));
    if recommendations == [] then None else Some(recommendations[0])
  }

  /** The pieces a task's link is looked up by, left untrimmed. */
  function TaskTopics(task: string): seq<string> {
    Split(Split(task, ":")[0], ",")
  }

  /** One line after the header: a fresh task, or `null` when the line is blank. */
  function TaskOf(line: string): Option<Task> {
    var description := Trim(line);
    if description == "" then None
    else Some(Task(description, false, TaskLink(description)))
  }

  function TasksOrNull(lines: seq<string>): (r: seq<Option<Task>>)
    ensures |r| == |lines| && forall i :: 0 <= i < |lines| ==> r[i] == TaskOf(lines[i])
  {
    seq(|lines|, i requires 0 <= i < |lines| => TaskOf(lines[i]))
  }

  /** The tasks of a block's remaining lines. */
  function Tasks(lines: seq<string>): seq<Task> {
    Present(TasksOrNull(lines))
  }

  /** One block of the plan as the `index`-th entry of the split: a day, or `null` when the block is blank. */
  function DayOf(block: string, index: nat): Option<StudyDay> {
    if Trim(block) == "" then None
    else
      var lines := Split(block, "\n");
      Some(StudyDay(DayLabel(index, Topic(lines[0])), Tasks(lines[1..])))
  }

  function DaysOrNull(blocks: seq<string>): (r: seq<Option<StudyDay>>)
    ensures |r| == |blocks| && forall i :: 0 <= i < |blocks| ==> r[i] == DayOf(blocks[i], i)
  {
    seq(|blocks|, i requires 0 <= i < |blocks| => DayOf(blocks[i], i))
  }

  /** The days of a plan: split at "\n\n", one day per block that is not blank. */
  function Segment(plan: string): seq<StudyDay> {
    Present(DaysOrNull(Split(plan, DaySeparator)))
  }

  /**
   * Every block that is not blank gives exactly one day and blank blocks give
   * none, in order; day `j` is numbered after its block's place `ks[j]` in
   * the unfiltered split, so dropped blocks leave gaps in the numbering.
   */
  lemma SegmentSpec(plan: string)
    ensures var blocks := Split(plan, DaySeparator);
      var days, ks := Segment(plan), PresentAt(DaysOrNull(blocks));
      && |days| == |ks|
      && Increasing(ks)
      && (forall k: nat :: k in ks <==> k < |blocks| && !IsBlank(blocks[k]))
      && (forall j :: 0 <= j < |ks| ==>
            days[j].date == DayLabel(ks[j], Topic(Split(blocks[ks[j]], "\n")[0]))
            && days[j].tasks == Tasks(Split(blocks[ks[j]], "\n")[1..]))
  {
    var blocks := Split(plan, DaySeparator);
    DaysKept(blocks);
    DaysContent(blocks);
  }

  lemma DaysKept(blocks: seq<string>)
    ensures var ks := PresentAt(DaysOrNull(blocks));
      && |Present(DaysOrNull(blocks))| == |ks|
      && Increasing(ks)
      && (forall k: nat :: k in ks <==> k < |blocks| && !IsBlank(blocks[k]))
  {
    var xs := DaysOrNull(blocks);
    PresentSpec(xs);
    forall k | 0 <= k < |blocks|
      ensures xs[k].Some? <==> !IsBlank(blocks[k])
    {
      TrimEmptyIffBlank(blocks[k]);
    }
  }

  lemma DaysContent(blocks: seq<string>)
    ensures var days, ks := Present(DaysOrNull(blocks)), PresentAt(DaysOrNull(blocks));
      |days| == |ks|
      && forall j :: 0 <= j < |ks| ==>
            days[j].date == DayLabel(ks[j], Topic(Split(blocks[ks[j]], "\n")[0]))
            && days[j].tasks == Tasks(Split(blocks[ks[j]], "\n")[1..])
  {
    var xs := DaysOrNull(blocks);
    PresentSpec(xs);
    var days, ks := Present(xs), PresentAt(xs);
    forall j | 0 <= j < |ks|
      ensures days[j].date == DayLabel(ks[j], Topic(Split(blocks[ks[j]], "\n")[0]))
      ensures days[j].tasks == Tasks(Split(blocks[ks[j]], "\n")[1..])
    {
      assert xs[ks[j]] == DayOf(blocks[ks[j]], ks[j]) == Some(days[j]);
    }
  }

  /** The digits that follow "Day " at the start of a label. */
  function LabelDigits(date: string): string
    requires |date| >= 4
  {
    date[4..SkipDigits(date, 4)]
  }

  /**
   * A label reads "Day ", the 1-based place of its block in the split, ": "
   * and a topic that is never empty; the number reads back as `index + 1`.
   */
  lemma DayLabelSpec(index: nat, topic: string)
    ensures var date, digits := DayLabel(index, topic), NatToString(index + 1);
      && date[..4] == "Day "
      && |date| > 4 + |digits| + 2
      && LabelDigits(date) == digits
      && DecimalValue(LabelDigits(date)) == index + 1
      && date[4 + |digits|..4 + |digits| + 2] == ": "
      && date[4 + |digits| + 2..] == (if topic == "" then DefaultTopic else topic)
  {
    var date, digits := DayLabel(index, topic), NatToString(index + 1);
    var rest := if topic == "" then DefaultTopic else topic;
    assert date == "Day " + digits + ": " + rest;
    assert date[4..4 + |digits|] == digits;
    assert date[4 + |digits|] == ':';
    SkipDigitsAt(date, 4, 4 + |digits|);
    NatToStringRoundTrip(index + 1);
  }

  /** Distinct places in the split give distinct labels, whatever the topics. */
  lemma DayLabelsDistinct(i: nat, j: nat, t: string, u: string)
    requires i != j
    ensures DayLabel(i, t) != DayLabel(j, u)
  {
    DayLabelSpec(i, t);
    DayLabelSpec(j, u);
  }

  /**
   * A header the page writes itself reads back to its topic: segmenting a
   * block whose first line is a label takes the "Day n: " marker off again.
   */
  lemma DayLabelTopic(index: nat, topic: string)
    requires topic != [] && !IsSpace(topic[0]) && !IsSpace(topic[|topic| - 1])
    ensures Topic(DayLabel(index, topic)) == topic
  {
    DayMarkerTopic(NatToString(index + 1), topic);
  }

  /** A first line "Day n: topic" loses its marker. */
  lemma DayMarkerTopic(digits: string, topic: string)
    requires digits != [] && forall i :: 0 <= i < |digits| ==> IsDigit(digits[i])
    requires topic != [] && !IsSpace(topic[0]) && !IsSpace(topic[|topic| - 1])
    ensures Topic("Day " + digits + ": " + topic) == topic
  {
    var line := "Day " + digits + ": " + topic;
    var n := |digits|;
    assert line[..3] == "Day" && line[3] == ' ';
    assert forall k :: 4 <= k < 4 + n ==> line[k] == digits[k - 4];
    assert line[4 + n] == ':' && line[5 + n] == ' ' && line[6 + n] == topic[0];
    assert line[6 + n..] == topic;
    DayMarkerLength(line, n);
    TrimUnchanged(line);
    TrimUnchanged(topic);
    TopicAfterMarker(line, 6 + n);
  }

  /** Where "Day", one space, `n` digits, ": " and no further space begin a line, the marker is that long. */
  lemma DayMarkerLength(line: string, n: nat)
    requires 0 < n && 6 + n < |line| && line[..3] == "Day" && line[3] == ' '
    requires forall k :: 4 <= k < 4 + n ==> IsDigit(line[k])
    requires line[4 + n] == ':' && line[5 + n] == ' ' && !IsSpace(line[6 + n])
    ensures MarkerLength(line) == 6 + n
  {
    SkipSpacesAt(line, 3, 4);
    SkipDigitsAt(line, 4, 4 + n);
    SkipSpacesAt(line, 5 + n, 6 + n);
  }

  /** A numbered first line, "n. topic", loses its number. */
  lemma NumberMarkerTopic(digits: string, topic: string)
    requires digits != [] && forall i :: 0 <= i < |digits| ==> IsDigit(digits[i])
    requires topic != [] && !IsSpace(topic[0]) && !IsSpace(topic[|topic| - 1])
    ensures Topic(digits + ". " + topic) == topic
  {
    var line := digits + ". " + topic;
    var n := |digits|;
    assert forall k :: 0 <= k < n ==> line[k] == digits[k];
    assert line[n] == '.' && line[n + 1] == ' ' && line[n + 2] == topic[0];
    assert line[n + 2..] == topic;
    NumberMarkerLength(line, n);
    TrimUnchanged(line);
    TrimUnchanged(topic);
    TopicAfterMarker(line, n + 2);
  }

  /** Where `n` digits, ". " and no further space begin a line, the marker is that long. */
  lemma NumberMarkerLength(line: string, n: nat)
    requires 0 < n && n + 2 < |line|
    requires forall k :: 0 <= k < n ==> IsDigit(line[k])
    requires line[n] == '.' && line[n + 1] == ' ' && !IsSpace(line[n + 2])
    ensures MarkerLength(line) == n + 2
  {
    assert line[..3] != "Day" by {
      assert IsDigit(line[0]);
      if |line| >= 3 {
        assert line[..3][0] == line[0];
      }
    }
    SkipDigitsAt(line, 0, n);
    SkipSpacesAt(line, n + 1, n + 2);
  }

  /** A trimmed line whose rest after the marker is trimmed has that rest as its topic. */
  lemma TopicAfterMarker(line: string, m: nat)
    requires Trim(line) == line && MarkerLength(line) == m && Trim(line[m..]) == line[m..]
    ensures Topic(line) == line[m..]
  {
  }

  /** The topic is trimmed: it neither starts nor ends with a space. */
  lemma TopicTrimmed(firstLine: string)
    ensures var t := Topic(firstLine); t == [] || (!IsSpace(t[0]) && !IsSpace(t[|t| - 1]))
  {
    var line := Trim(firstLine);
    TrimEnds(line[MarkerLength(line)..]);
  }

  /** A first line without a leading marker keeps its text; markers are case-sensitive, so "day 1:" stays. */
  lemma NoMarkerKeepsLine(firstLine: string)
    requires MarkerLength(Trim(firstLine)) == 0
    ensures Topic(firstLine) == Trim(firstLine)
  {
    var line := Trim(firstLine);
    assert line[0..] == line;
    TrimIdempotent(firstLine);
  }

  /**
   * The tasks of a block are its remaining lines trimmed, blank ones dropped
   * and the order kept; each starts not completed.
   */
  lemma TasksSpec(lines: seq<string>)
    ensures var r, ks := Tasks(lines), PresentAt(TasksOrNull(lines));
      && |r| == |ks|
      && Increasing(ks)
      && (forall k: nat :: k in ks <==> k < |lines| && !IsBlank(lines[k]))
      && (forall j :: 0 <= j < |ks| ==>
            r[j].description == Trim(lines[ks[j]]) && r[j].description != ""
            && !r[j].completed
            && r[j].khanAcademyLink == TaskLink(r[j].description))
  {
    var xs := TasksOrNull(lines);
    PresentSpec(xs);
    forall k | 0 <= k < |lines|
      ensures xs[k].Some? <==> !IsBlank(lines[k])
    {
      TrimEmptyIffBlank(lines[k]);
    }
  }

  /**
   * A task's link is the playlist of the first of its pieces that is a key
   * of the topic table, and there is none exactly when no piece is a key.
   */
  lemma TaskLinkSpec(task: string)
    ensures var pieces := TaskTopics(task);
      && (TaskLink(task).None? <==> forall i :: 0 <= i < |pieces| ==> pieces[i] !in TopicToSection)
      && (TaskLink(task).Some? ==>
            exists i :: 0 <= i < |pieces| && pieces[i] in TopicToSection
              && (forall h :: 0 <= h < i ==> pieces[h] !in TopicToSection)
              && TaskLink(task) == TopicPlaylist(pieces[i]))
  {
    var pieces := TaskTopics(task);
    RecommendationsSpec(pieces);
    var r := KhanAcademyRecommendations(pieces);
    if r != [] {
      var u := r[0];
      assert u in r;
      var t :| t in pieces && t in TopicToSection && TopicPlaylist(t) == Some(u);
      var i := FirstKey(pieces);
      FirstRecommendation(pieces, i);
    } else {
      forall i | 0 <= i < |pieces|
        ensures pieces[i] !in TopicToSection
      {
        TopicPlaylistValues(pieces[i]);
      }
    }
  }

  /** The position of the first piece that is a key of the topic table. */
  function FirstKey(pieces: seq<string>): (i: nat)
    requires exists t :: t in pieces && t in TopicToSection
    ensures i < |pieces| && pieces[i] in TopicToSection
    ensures forall h :: 0 <= h < i ==> pieces[h] !in TopicToSection
  {
    if pieces[0] in TopicToSection then 0
    else
      assert exists t :: t in pieces[1..] && t in TopicToSection by {
        var t :| t in pieces && t in TopicToSection;
        assert t != pieces[0];
      }
      1 + FirstKey(pieces[1..])
  }

  /** The first recommendation is the playlist of the first piece that is a key. */
  lemma FirstRecommendation(pieces: seq<string>, i: nat)
    requires i < |pieces| && pieces[i] in TopicToSection
    requires forall h :: 0 <= h < i ==> pieces[h] !in TopicToSection
    ensures KhanAcademyRecommendations(pieces) != []
    ensures Some(KhanAcademyRecommendations(pieces)[0]) == TopicPlaylist(pieces[i])
  {
    var before, after := pieces[..i], pieces[i + 1..];
    assert pieces == before + [pieces[i]] + after;
    CollectedMembers(before);
    forall t | t in before
      ensures TopicPlaylist(t).None?
    {
      TopicPlaylistValues(t);
    }
    assert Collected(before) == [] by {
      if Collected(before) != [] {
        assert Collected(before)[0] in Collected(before);
      }
    }
    TopicPlaylistValues(pieces[i]);
    CollectedConcat(before + [pieces[i]], after);
    CollectedConcat(before, [pieces[i]]);
    CollectedSingle(pieces[i]);
    DedupHead(Collected(pieces));
  }

  /** Deduplication keeps the first element first. */
  lemma {:induction false} DedupHead<T>(xs: seq<T>)
    requires xs != []
    ensures Dedup(xs) != [] && Dedup(xs)[0] == xs[0]
    decreases |xs|
  {
    if |xs| > 1 {
      var init := xs[..|xs| - 1];
      DedupHead(init);
      assert init[0] == xs[0];
    } else {
      assert xs[..0] == [];
    }
  }

  // ---------------------------------------------------------------------------
  // The page state and its toggles
  // ---------------------------------------------------------------------------

  /**
   * `toggleDayExpansion`'s update: a date that is expanded is taken out,
   * every copy of it; one that is not is appended.
   */
  function ToggledExpansion(expanded: seq<string>, date: string): seq<string> {
    if date in expanded then Filter(expanded, d => d != date) else expanded + [date]
  }

  /**
   * Toggling flips whether `date` is expanded and leaves every other date as
   * it was: the others keep their order, a newly expanded date goes last.
   */
  lemma ToggledExpansionSpec(expanded: seq<string>, date: string)
    ensures var r := ToggledExpansion(expanded, date);
      && (date in r <==> date !in expanded)
      && (forall d :: d != date ==> (d in r <==> d in expanded))
      && (date !in expanded ==> r == expanded + [date])
      && (date in expanded ==> r == Filter(expanded, d => d != date))
  {
    FilterMembers(expanded, d => d != date);
  }

  /** Expanding a collapsed date and collapsing it again restores the list. */
  lemma ToggleExpansionTwice(expanded: seq<string>, date: string)
    requires date !in expanded
    ensures ToggledExpansion(ToggledExpansion(expanded, date), date) == expanded
  {
    var once := expanded + [date];
    assert date in once;
    FilterSnoc(expanded, date, d => d != date);
    FilterAll(expanded, d => d != date);
  }

  /** The days with the completed flag of task `t` of day `d` flipped. */
  function WithTaskFlipped(days: seq<StudyDay>, d: nat, t: nat): seq<StudyDay>
    requires d < |days| && t < |days[d].tasks|
  {
    var task := days[d].tasks[t];
    days[d := days[d].(tasks := days[d].tasks[t := task.(completed := !task.completed)])]
  }

  /** Only the one flag changes: every other day and task, and the rest of that task, stay as they were. */
  lemma WithTaskFlippedSpec(days: seq<StudyDay>, d: nat, t: nat)
    requires d < |days| && t < |days[d].tasks|
    ensures var r := WithTaskFlipped(days, d, t);
      && |r| == |days|
      && (forall e :: 0 <= e < |days| && e != d ==> r[e] == days[e])
      && r[d].date == days[d].date
      && |r[d].tasks| == |days[d].tasks|
      && (forall u :: 0 <= u < |days[d].tasks| && u != t ==> r[d].tasks[u] == days[d].tasks[u])
      && r[d].tasks[t].description == days[d].tasks[t].description
      && r[d].tasks[t].khanAcademyLink == days[d].tasks[t].khanAcademyLink
      && r[d].tasks[t].completed == !days[d].tasks[t].completed
  {
  }

  /** Flipping the same task twice restores the days. */
  lemma WithTaskFlippedTwice(days: seq<StudyDay>, d: nat, t: nat)
    requires d < |days| && t < |days[d].tasks|
    ensures WithTaskFlipped(WithTaskFlipped(days, d, t), d, t) == days
  {
    var task := days[d].tasks[t];
    var r := WithTaskFlipped(days, d, t);
    assert r[d].tasks[t] == task.(completed := !task.completed);
    assert r[d].tasks[t := task] == days[d].tasks;
    assert r[d := days[d]] == days;
  }

  /** The state of the study-plan page. */
  class StudyPlanPage {
    var studyDays: seq<StudyDay>
    var courseImpacts: seq<CourseImpact>
    var expandedDays: seq<string>

    constructor ()
      ensures studyDays == [] && courseImpacts == [] && expandedDays == []
    {
      studyDays := [];
      courseImpacts := [];
      expandedDays := [];
    }

    /** The mount effect: with saved data, compute the impacts and the days; without, change nothing. */
    method Load(savedData: Option<SavedPlan>)
      modifies this
      ensures savedData.None? ==> studyDays == old(studyDays) && courseImpacts == old(courseImpacts)
      ensures savedData.Some? ==>
        studyDays == Segment(savedData.value.plan) && courseImpacts == CourseImpacts(savedData.value.coursesAndGrades)
      ensures expandedDays == old(expandedDays)
    {
      if savedData.Some? {
        LoadImpacts(savedData.value.coursesAndGrades);
        LoadDays(savedData.value.plan);
      }
    }

    /** `setCourseImpacts(impacts)`. */
    method LoadImpacts(saved: seq<SavedCourse>)
      modifies this
      ensures courseImpacts == CourseImpacts(saved)
      ensures studyDays == old(studyDays) && expandedDays == old(expandedDays)
    {
      courseImpacts := CourseImpacts(saved);
    }

    /** `setStudyDays(days)`. */
    method LoadDays(plan: string)
      modifies this
      ensures studyDays == Segment(plan)
      ensures courseImpacts == old(courseImpacts) && expandedDays == old(expandedDays)
    {
      studyDays := Segment(plan);
    }

    /** `toggleDayExpansion(date)`. */
    method ToggleDayExpansion(date: string)
      modifies this
      ensures expandedDays == ToggledExpansion(old(expandedDays), date)
      ensures date in expandedDays <==> date !in old(expandedDays)
      ensures studyDays == old(studyDays) && courseImpacts == old(courseImpacts)
    {
      ToggledExpansionSpec(expandedDays, date);
      if date in expandedDays {
        expandedDays := Filter(expandedDays, d => d != date);
      } else {
        expandedDays := expandedDays + [date];
      }
    }

    /** `toggleTaskCompletion(dayIndex, taskIndex)`: flips one task's flag in place. */
    method ToggleTaskCompletion(dayIndex: nat, taskIndex: nat)
      requires dayIndex < |studyDays| && taskIndex < |studyDays[dayIndex].tasks|
      modifies this
      ensures studyDays == WithTaskFlipped(old(studyDays), dayIndex, taskIndex)
      ensures studyDays[dayIndex].tasks[taskIndex].completed == !old(studyDays[dayIndex].tasks[taskIndex].completed)
      ensures expandedDays == old(expandedDays) && courseImpacts == old(courseImpacts)
    {
      var day := studyDays[dayIndex];
      var task := day.tasks[taskIndex];
      var tasks := day.tasks[taskIndex := task.(completed := !task.completed)];
      studyDays := studyDays[dayIndex := day.(tasks := tasks)];
    }
  }
}
