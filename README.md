# classtrack_sat logic in Dafny

This project models the four computational pieces of the classtrack_sat web
application and proves properties of them. The rest of the application is
pages and network calls.

- **Course-impact estimator** (`lib/courseImpact.ts`, module `ImpactEstimator`,
  file `course_impact.dfy`).
  - `calculateCourseImpact` is a method that follows the source's if-chain:
    the grade tier, then five section blocks that push into three lists and add
    weighted points, then the 160-point cap and the `null` case.
  - It is proved equal to a table-driven reference function over
    `SAT_RESOURCES`.
  - `getKhanAcademyRecommendations` is a method with the `forEach` loop and the
    `Set` deduplication. It is proved equal to a function whose properties
    are proved as lemmas.
  - Weights are kept in tenths. The tier is always a multiple of 20, so every
    sum is an exact integer.
- **Score estimator and grade-line parser** (`components/UploadTranscript.tsx`,
  module `TranscriptUpload`, file `upload_transcript.dfy`).
  - `estimateSATScores` is a method with the source's loop and clamp, proved
    against a specification function.
  - The regular expression `/\b(A\+?|A-|…|F)\b/` is modelled as an explicit
    scanner. It tries start positions left to right and, at each one, the
    alternatives in the order the pattern tries them.
  - `replace(grade, "")` removes the first textual occurrence. The
    `\s+` collapse and `trim` are written out in module `Strings`.
- **Plan prompt and response fallback** (`app/api/generate-plan/route.ts`,
  module `PlanGeneration`, file `generate_plan.dfy`). Covers the
  `course - grade` lines, the fixed prompt template and the
  `content || text || "Failed to generate study plan."` chain.
- **Study-plan page** (`components/YourStudyPlan.tsx`, module `StudyPlan`,
  file `study_plan.dfy`).
  - The impact summary (map, then drop the `null`s).
  - The segmenter: split at blank lines into days, take a topic from the first
    line, and turn the other lines into tasks with an optional playlist link.
  - The page state: a class `StudyPlanPage` whose fields are the three state
    variables. The mount effect and the two toggles are methods that reassign
    them.

Shared string and sequence primitives live in `strings.dfy` (`trim`, `split`,
`join`, `indexOf`, `includes`, replace-first, `\s+` collapse, `toLowerCase`,
decimal rendering) and `sequences.dfy` (`filter`, and map-then-drop-`null`).
`wrappers.dfy` holds `Option` and `numbers.dfy` the integer `Min`/`Max`.

JavaScript's `\s` and `trim` use the full set of Unicode white-space and
line-terminator characters, and `Strings.IsSpace` lists that set. `\b` uses
the ASCII word characters.

## Model

| member | source | states |
|---|---|---|
| ImpactEstimator.GradeTier | lib/courseImpact.ts:54-59 | the if/else-if chain of the source yields exactly the tier function `ImpactTier` |
| ImpactEstimator.ImpactTierChain | lib/courseImpact.ts:51-59 | tier is 100 for a grade of at least 90, 80 for 80-89, 60 for 70-79, 40 for 60-69, 20 below 60 and 20 for NaN; always one of {20,40,60,80,100} |
| ImpactEstimator.ImpactTierMonotone | lib/courseImpact.ts:55-59 | a higher grade never gives a lower tier |
| ImpactEstimator.ApplySectionRule | lib/courseImpact.ts:70-75 | one section block: when the course is listed, it pushes the section and the link, appends the three topics and adds impact × weight; otherwise it changes nothing |
| ImpactEstimator.CalculateCourseImpact | lib/courseImpact.ts:50-123 | the imperative function returns exactly the table-driven reference result `CourseImpactOf` (tier, five rules in order, cap, null) |
| ImpactEstimator.SectionRulesMatchResources | lib/courseImpact.ts:17-48 | rule k reacts to the related courses of `SAT_RESOURCES[k]`, pushes its section and its playlist, adds three topics, and has a weight between 0.4 and 0.8 |
| ImpactEstimator.MatchedUpToSpec | lib/courseImpact.ts:70-107 | the rules a course triggers are exactly those whose course list holds it, in increasing table order |
| ImpactEstimator.CourseImpactNullIff | lib/courseImpact.ts:113 | the result is null if and only if the course is not one of the eight course names; names match exactly and case-sensitively |
| ImpactEstimator.CourseImpactShape | lib/courseImpact.ts:110-122 | a non-null result keeps the course and the grade's tier, has points = min(160, Σ tier × weight over the matched rules), hence in [0,160], and has one section, one link and three topics per matching resource; entry j comes from the j-th matching resource in table order |
| ImpactEstimator.StatisticsExample | lib/courseImpact.ts:94-99 | "Statistics" with 95 gives impact 100, 50 points, the single section "Problem Solving & Data Analysis" and its link |
| ImpactEstimator.AlgebraTwoCapped | lib/courseImpact.ts:110 | "Algebra 2" at the top tier accumulates 220 points, which the cap brings to 160 |
| ImpactEstimator.FindFirstMatch | lib/courseImpact.ts:147 | `find` returns the first resource with the requested section |
| ImpactEstimator.TopicPlaylistValues | lib/courseImpact.ts:144-151 | a topic yields a playlist if and only if it is a key of `topicToSection`; that playlist belongs to the resource whose section the key names |
| ImpactEstimator.DedupSpec | lib/courseImpact.ts:155 | the `Set` spread keeps every element once, drops nothing else, and keeps the order of first occurrence |
| ImpactEstimator.RecommendationsSpec | lib/courseImpact.ts:125-156 | no duplicates; a playlist is recommended if and only if some topic that is a table key leads to it; each is a `SAT_RESOURCES` playlist; at most 3; none for no topics |
| ImpactEstimator.UnknownTopicIgnored | lib/courseImpact.ts:145-146 | inserting a topic that is not a table key anywhere in the list leaves the recommendations unchanged |
| ImpactEstimator.SharedPlaylist | lib/courseImpact.ts:155 | two topics that lead to the same playlist give that playlist once |
| ImpactEstimator.ReadingAndDataShareLink | lib/courseImpact.ts:20-38 | "Reading" and "Data" lead to sections with the same URL, so the result is one link |
| ImpactEstimator.GetKhanAcademyRecommendations | lib/courseImpact.ts:125-156 | the loop and the dedup return exactly `KhanAcademyRecommendations(topics)` |
| ImpactEstimator.ImpactTier | lib/courseImpact.ts:54-59 | the tier of a parsed grade: 20 plus 20 for each of the thresholds 60, 70, 80, 90 it reaches; 20 for NaN |
| ImpactEstimator.CourseImpactOf | lib/courseImpact.ts:50-123 | the reference result: the tier, the five rules of the table applied in order to empty lists and 0 points, the points capped at 160, and null when no section was pushed |
| ImpactEstimator.FindResourceFrom | lib/courseImpact.ts:147 | `SAT_RESOURCES.find(r => r.section === section)` from entry k on: a found entry has that section, and none is found only when no entry has it |
| ImpactEstimator.TopicPlaylist | lib/courseImpact.ts:145-150 | the playlist one topic contributes: the URL of the resource its `topicToSection` section names, or nothing for a topic that is not a key |
| ImpactEstimator.Collected | lib/courseImpact.ts:144-152 | the `recommendations` list after the `forEach`: one playlist per recognised topic, in topic order |
| ImpactEstimator.Dedup | lib/courseImpact.ts:155 | `[...new Set(xs)]`: each element at its first occurrence, in order |
| ImpactEstimator.KhanAcademyRecommendations | lib/courseImpact.ts:125-156 | the recommendations: the deduplicated collected playlists |
| TranscriptUpload.EstimateSATScores | components/UploadTranscript.tsx:7-44 | the loop returns the clamped baseline-plus-increments `ScoresOf`; no records give 500/500; both scores lie in [500,800] |
| TranscriptUpload.PrecalculusBranchUnreachable | components/UploadTranscript.tsx:15-21 | the math chain gives 60 for "calculus", else 20 for "algebra", else 0: the +40 branch is dead because both precalculus spellings contain "calculus" |
| TranscriptUpload.PrecalculusCountsAsCalculus | components/UploadTranscript.tsx:17-18 | a course whose lower-cased name contains "pre-calculus" or "precalculus" gets 60 from the chain |
| TranscriptUpload.EnglishIncrementCases | components/UploadTranscript.tsx:28-34 | the English increment is one of 0/10/30/40; it is 40 if and only if an AP keyword occurs, and 0 if and only if no keyword occurs |
| TranscriptUpload.PointsRange | components/UploadTranscript.tsx:14-34 | per course, the math increment is in [0,90] (physics adds independently) and the English increment in [0,40] |
| TranscriptUpload.ScoresInRange | components/UploadTranscript.tsx:37-38 | for any records, both estimated scores lie between 500 and 800 |
| TranscriptUpload.TotalPermutation | components/UploadTranscript.tsx:11-35 | the sum of increments depends only on the multiset of names |
| TranscriptUpload.ScoresDependOnNamesOnly | components/UploadTranscript.tsx:11-43 | records with the same multiset of course names, in any order and with any grades, give the same scores |
| TranscriptUpload.ScanFindsFirst | components/UploadTranscript.tsx:95 | the scanner returns the leftmost word-bounded token and, at that position, the first alternative in pattern order |
| TranscriptUpload.ParseTranscriptSpec | components/UploadTranscript.tsx:97-98 | split at "\n", drop whitespace-only lines, then one record per kept line, in order |
| TranscriptUpload.NoTokenLine | components/UploadTranscript.tsx:105-106 | a line with no grade token gives the untrimmed line with grade "N/A" |
| TranscriptUpload.MinusGradesNeverWin | components/UploadTranscript.tsx:95 | the matched grade is never "A-", "B-", "C-" or "D-": the bare letter matches at the same place and is tried first |
| TranscriptUpload.APlusNeedsWordAfter | components/UploadTranscript.tsx:95 | "A+" is captured only when a word character follows the "+" |
| TranscriptUpload.MatchedGrade | components/UploadTranscript.tsx:99-102 | on a match, the grade is the matched alternative, never "N/A"; its first textual occurrence lies at or before the token |
| TranscriptUpload.MatchedCourse | components/UploadTranscript.tsx:103 | on a match, the course is the line with the first occurrence of the grade cut out, space runs collapsed and trimmed; it has no leading, trailing or doubled space |
| TranscriptUpload.NoTokenAtPosition | components/UploadTranscript.tsx:95 | no token starts where there is no word boundary or no grade letter |
| TranscriptUpload.NoTokenInsideWord | components/UploadTranscript.tsx:95 | no token starts at a letter that another word character follows |
| TranscriptUpload.BiologyExample | components/UploadTranscript.tsx:99-104 | "AP Biology B" parses to course "AP iology B", grade "B" |
| TranscriptUpload.MathChainPoints | components/UploadTranscript.tsx:15-21 | the math if/else-if chain on the lower-cased name: 60, 40 or 20 by the first keyword that occurs, else 0 |
| TranscriptUpload.PhysicsPoints | components/UploadTranscript.tsx:23-25 | 30 when the lower-cased name contains "physics", else 0 |
| TranscriptUpload.EnglishChainPoints | components/UploadTranscript.tsx:28-34 | the English chain: 40 for an AP keyword, else 30 for "journalism"/"writing", else 10 for "english", else 0 |
| TranscriptUpload.Clamp | components/UploadTranscript.tsx:37-38 | `Math.min(800, Math.max(400, x))` |
| TranscriptUpload.ScoresOf | components/UploadTranscript.tsx:7-44 | the reference scores: 500 plus the summed increments of every course name, clamped, for math and for English |
| TranscriptUpload.ScanFrom | components/UploadTranscript.tsx:95 | the regex scan from position p: a result is a word-bounded token, with no token at an earlier position and no earlier alternative at its own; no result means no token at or after p |
| TranscriptUpload.MatchGrade | components/UploadTranscript.tsx:99 | `line.match(gradePattern)`: the scan from the start of the line |
| TranscriptUpload.ParseLine | components/UploadTranscript.tsx:98-107 | on a match, the matched grade and the line with that grade's first occurrence removed, white-space runs collapsed and trimmed; otherwise the untrimmed line with "N/A" |
| TranscriptUpload.TextLines | components/UploadTranscript.tsx:97 | the text split at "\n" with the lines whose `trim()` is empty filtered out |
| TranscriptUpload.ParseTranscript | components/UploadTranscript.tsx:97-108 | `ParseLine` applied to every kept line, in order |
| TranscriptUpload.MathPoints | components/UploadTranscript.tsx:12-25 | what one course adds to the math score: the math chain plus the physics bonus, both on the lower-cased name |
| TranscriptUpload.EnglishPoints | components/UploadTranscript.tsx:28-34 | what one course adds to the English score: the English chain on the name lower-cased as at line 12 |
| TranscriptUpload.WordBoundary | components/UploadTranscript.tsx:95 | `\b` at a position: a word character on exactly one side of it |
| TranscriptUpload.TokenAt | components/UploadTranscript.tsx:95 | `\b<alternative>\b` at a position: the alternative's text occurs there with a word boundary before and after it |
| Strings.TrimEmptyIffBlank | components/UploadTranscript.tsx:97 | `trim()` is empty if and only if the line is all white space |
| Strings.CollapseSpacesIdempotent | components/UploadTranscript.tsx:103 | collapsing space runs twice is the same as once |
| Strings.TrimIsInfix | components/YourStudyPlan.tsx:67 | `trim()` keeps an infix of the line and what it drops on either side is all white space |
| Strings.JoinSplit | components/YourStudyPlan.tsx:62 | splitting the plan at "\n\n" loses nothing: joining the blocks with the separator gives the plan back |
| Strings.SplitPiecesFree | components/YourStudyPlan.tsx:62 | no block of the split contains the separator |
| Strings.CollapseSpacesKeepsText | components/UploadTranscript.tsx:103 | the `\s+` collapse keeps every non-space character of the line, in order |
| Strings.NatToStringInjective | components/YourStudyPlan.tsx:84 | different day numbers render as different decimal strings |
| Strings.IsSpace | components/UploadTranscript.tsx:103 | the characters `\s` matches and `trim()` removes: tab, line feed, vertical tab, form feed, carriage return, space, no-break space, the Unicode space separators, line and paragraph separator and the byte order mark |
| Strings.IsWordChar | components/UploadTranscript.tsx:95 | the characters `\w` matches, which decide where `\b` holds: ASCII letters, digits and `_` |
| Strings.Trim | components/UploadTranscript.tsx:97 | `trim()`, also at components/UploadTranscript.tsx:103 and components/YourStudyPlan.tsx:64,67,69,73: the leading and the trailing white space removed |
| Strings.TrimEnds | components/YourStudyPlan.tsx:67-69 | a trimmed string is empty or starts and ends with a non-space |
| Strings.TrimIdempotent | components/YourStudyPlan.tsx:67-69 | trimming a trimmed string changes nothing |
| Strings.IndexOfFrom | components/UploadTranscript.tsx:103 | `indexOf(p, from)`: a result is an occurrence of the pattern at or after `from`, and no occurrence starts between `from` and it; none means no occurrence from `from` on |
| Strings.IndexOf | components/UploadTranscript.tsx:103 | `indexOf(p)`: the search from position 0, which `replace` uses to find the first occurrence |
| Strings.Contains | components/UploadTranscript.tsx:15-33 | `includes`: the pattern occurs somewhere |
| Strings.ContainsIff | components/UploadTranscript.tsx:15-33 | `includes` holds if and only if the pattern occurs at some position |
| Strings.RemoveFirst | components/UploadTranscript.tsx:103 | `replace(grade, "")` with a string pattern: unchanged when the pattern does not occur; otherwise the pattern's length shorter, and putting the pattern back at its first occurrence restores the text |
| Strings.CollapseSpaces | components/UploadTranscript.tsx:103 | `replace(/\s+/g, " ")`: every maximal run of white space becomes one space |
| Strings.CollapseSpacesSingle | components/UploadTranscript.tsx:103 | after the collapse the only white space is ' ' and no two spaces are adjacent |
| Strings.Split | components/UploadTranscript.tsx:97 | `split` with a string separator, also at components/YourStudyPlan.tsx:62,67,72,79: at least one piece, cut at each occurrence from left to right |
| Strings.Join | app/api/generate-plan/route.ts:6 | `join("\n")`: the pieces with the separator between neighbours; "" for none |
| Strings.SplitJoin | app/api/generate-plan/route.ts:6 | pieces free of a one-character separator are recovered by splitting their join |
| Strings.JoinCount | app/api/generate-plan/route.ts:6 | joining n pieces free of a one-character separator holds n-1 separators |
| Strings.ToLower | components/UploadTranscript.tsx:12 | `toLowerCase`: same length, each character lowered (ASCII letters only) |
| Strings.NatToString | components/YourStudyPlan.tsx:84 | the decimal rendering of `${index + 1}`: non-empty, digits only, no leading zero |
| Strings.NatToStringRoundTrip | components/YourStudyPlan.tsx:84 | reading the rendered digits back gives the number |
| Sequences.Filter | components/UploadTranscript.tsx:97 | `filter`, also at components/YourStudyPlan.tsx:35,81: the accepted entries, in order |
| Sequences.FilterSpec | components/UploadTranscript.tsx:97 | entry j of the filter is the input entry at the j-th accepted position; the positions increase and are exactly the accepted ones |
| Sequences.FilterMembers | components/YourStudyPlan.tsx:35 | an element is in the filter if and only if it is in the input and accepted |
| Sequences.Present | components/YourStudyPlan.tsx:57 | `map(...).filter(x => x !== null)`, also at components/YourStudyPlan.tsx:81,87: the non-null values, in order |
| Sequences.PresentSpec | components/YourStudyPlan.tsx:57 | entry j of the result is the value at the j-th non-null position; the positions increase and are exactly the non-null ones |
| PlanGeneration.CoursesTextSpec | app/api/generate-plan/route.ts:6 | no records give ""; the text ends with the last record's line; without embedded newlines it holds n-1 separators and splits back into the record lines |
| PlanGeneration.PromptEmbedsCourses | app/api/generate-plan/route.ts:8-22 | the prompt is the fixed head, then the courses text verbatim, then the fixed tail, and the text can be read back out |
| PlanGeneration.PromptInjective | app/api/generate-plan/route.ts:8-22 | different courses texts give different prompts |
| PlanGeneration.PlanFallback | app/api/generate-plan/route.ts:50-54 | the plan is never empty, and it is either the sentinel or the first choice's message content or text |
| PlanGeneration.ContentWins | app/api/generate-plan/route.ts:52 | a non-empty content of the first choice is the plan, whatever its text and the later choices |
| PlanGeneration.TextWhenNoContent | app/api/generate-plan/route.ts:52 | with a missing or empty content, a non-empty text of the first choice is the plan |
| PlanGeneration.SentinelWhenNeither | app/api/generate-plan/route.ts:52 | with neither a non-empty content nor a non-empty text, the plan is "Failed to generate study plan." |
| PlanGeneration.MissingChoicesGiveSentinel | app/api/generate-plan/route.ts:50-54 | a reply without choices or with an empty list still answers `{plan: "Failed to generate study plan."}` |
| PlanGeneration.EmptyContentFallsThrough | app/api/generate-plan/route.ts:52 | an empty-string content falls through to the text |
| PlanGeneration.CourseLine | app/api/generate-plan/route.ts:6 | one record as `${course} - ${grade}` |
| PlanGeneration.CoursesText | app/api/generate-plan/route.ts:6 | the record lines joined with "\n" |
| PlanGeneration.Prompt | app/api/generate-plan/route.ts:8-22 | the template text before `${coursesText}`, the courses text, then the template text after it |
| PlanGeneration.PlanContent | app/api/generate-plan/route.ts:50-52 | `choices?.[0]`, then its `message?.content` if a non-empty string, else its `text` if a non-empty string, else "Failed to generate study plan." |
| PlanGeneration.Reply | app/api/generate-plan/route.ts:54 | the response body `{ plan: content }` |
| PlanGeneration.Truthy | app/api/generate-plan/route.ts:52 | a value `||` keeps: a present, non-empty string |
| PlanGeneration.FirstChoice | app/api/generate-plan/route.ts:50 | `data.choices?.[0]`: none for missing or empty choices |
| PlanGeneration.MessageContent | app/api/generate-plan/route.ts:52 | `choice?.message?.content`: none when the choice or its message is missing |
| PlanGeneration.ChoiceText | app/api/generate-plan/route.ts:52 | `choice?.text`: none when the choice is missing |
| StudyPlan.CourseImpactsSpec | components/YourStudyPlan.tsx:54-57 | one impact per saved record whose course is known, in record order, each carrying its course and its grade's tier |
| StudyPlan.SegmentSpec | components/YourStudyPlan.tsx:62-87 | blank blocks give no day; every other block gives one day, in order, labelled with its place in the unfiltered split, with tasks from its other lines |
| StudyPlan.DayLabelSpec | components/YourStudyPlan.tsx:84 | the label is "Day ", then k = index + 1 in decimal (reads back as k), then ": ", then the topic or "Study Plan" |
| StudyPlan.DayLabelsDistinct | components/YourStudyPlan.tsx:84 | different places in the split give different labels, whatever the topics |
| StudyPlan.DayLabelTopic | components/YourStudyPlan.tsx:69 | a label the page writes reads back to its topic when segmented again |
| StudyPlan.DayMarkerTopic | components/YourStudyPlan.tsx:69 | a first line "Day n: topic" loses its marker |
| StudyPlan.NumberMarkerTopic | components/YourStudyPlan.tsx:69 | a first line "n. topic" loses its number |
| StudyPlan.TopicTrimmed | components/YourStudyPlan.tsx:67-69 | the topic neither starts nor ends with white space |
| StudyPlan.NoMarkerKeepsLine | components/YourStudyPlan.tsx:69 | without a leading marker the topic is the trimmed first line (markers are case-sensitive) |
| StudyPlan.TasksSpec | components/YourStudyPlan.tsx:72-81 | one task per non-blank line, in order, with the trimmed non-empty text, not completed, and with the link of its text |
| StudyPlan.TaskLinkSpec | components/YourStudyPlan.tsx:79 | the link is the playlist of the first untrimmed piece before ":" that is a table key; there is no link exactly when no piece is a key |
| StudyPlan.ToggledExpansionSpec | components/YourStudyPlan.tsx:32-38 | membership of the date flips, every other date keeps its membership, a new date is appended, and removal drops every copy |
| StudyPlan.ToggleExpansionTwice | components/YourStudyPlan.tsx:32-38 | expanding a collapsed date and collapsing it again restores the list |
| StudyPlan.WithTaskFlippedSpec | components/YourStudyPlan.tsx:40-46 | only that task's completed flag changes; every other day and task, and the rest of that task, stay the same |
| StudyPlan.WithTaskFlippedTwice | components/YourStudyPlan.tsx:40-46 | flipping the same task twice restores the days |
| StudyPlan.StudyPlanPage.Load | components/YourStudyPlan.tsx:48-91 | with saved data, the impacts and days become `CourseImpacts` and `Segment` of it; without, nothing changes; expanded days are untouched |
| StudyPlan.StudyPlanPage.LoadImpacts | components/YourStudyPlan.tsx:59 | sets the impacts and leaves the other fields |
| StudyPlan.StudyPlanPage.LoadDays | components/YourStudyPlan.tsx:89 | sets the days and leaves the other fields |
| StudyPlan.StudyPlanPage.ToggleDayExpansion | components/YourStudyPlan.tsx:32-38 | the expanded list becomes `ToggledExpansion` of the old one, with the date's membership flipped; the other fields are unchanged |
| StudyPlan.StudyPlanPage.ToggleTaskCompletion | components/YourStudyPlan.tsx:40-46 | the days become `WithTaskFlipped` of the old days, with that one flag negated; the other fields are unchanged |
| StudyPlan.CourseImpacts | components/YourStudyPlan.tsx:54-57 | the impact of every saved record, with the nulls filtered out |
| StudyPlan.DayMarker | components/YourStudyPlan.tsx:69 | the length of a leading `Day\s+[0-9]+:\s*`, if the line starts with one |
| StudyPlan.NumberMarker | components/YourStudyPlan.tsx:69 | the length of a leading `[0-9]+\.\s*`, if the line starts with one |
| StudyPlan.MarkerLength | components/YourStudyPlan.tsx:69 | what the anchored replace removes: the "Day" alternative if it matches, else the number alternative, else nothing |
| StudyPlan.Topic | components/YourStudyPlan.tsx:67-69 | the first line trimmed, its marker removed, trimmed again |
| StudyPlan.DayLabel | components/YourStudyPlan.tsx:84 | "Day " + (index + 1) in decimal + ": " + the topic, or "Study Plan" when the topic is empty |
| StudyPlan.TaskLink | components/YourStudyPlan.tsx:79 | the first recommendation for the comma-separated pieces of the text before the first ":", or none |
| StudyPlan.TaskTopics | components/YourStudyPlan.tsx:79 | `task.split(":")[0].split(",")`: the untrimmed comma-separated pieces before the first colon |
| StudyPlan.TaskOf | components/YourStudyPlan.tsx:73-80 | a blank line gives null; any other line gives its trimmed text, not completed, with its link |
| StudyPlan.Tasks | components/YourStudyPlan.tsx:72-81 | `TaskOf` over the lines after the first, with the nulls filtered out |
| StudyPlan.DayOf | components/YourStudyPlan.tsx:62-86 | a blank block gives null; any other block gives the day labelled from its index and its first line, with the tasks of its other lines |
| StudyPlan.Segment | components/YourStudyPlan.tsx:62-87 | the plan split at "\n\n", `DayOf` applied with each block's index in the split, nulls filtered out |
| StudyPlan.ToggledExpansion | components/YourStudyPlan.tsx:33-37 | an expanded date is filtered out, every copy; any other date is appended |
| StudyPlan.WithTaskFlipped | components/YourStudyPlan.tsx:41-44 | the days with `completed` of task t of day d negated |

## Left out

- `parseInt` (lib/courseImpact.ts:51) and `grade.toString()` (components/YourStudyPlan.tsx:55) are JavaScript library conversions. A grade arrives already parsed as `Option<int>`, with `None` standing for `NaN`.
- JavaScript floating point: the weights 0.8…0.4 are tenths and the sums are exact integers, which agrees with the source because every tier is a multiple of 20.
- The file upload and OCR plumbing of components/UploadTranscript.tsx (lines 57-90) is network I/O; the recognised text is an input of the parser. The nested handler there does not parse as written.
- The OpenRouter request in app/api/generate-plan/route.ts (lines 24-47): the API key, the HTTP call and the console logging are I/O. The parsed reply is an input with optional fields; a non-string `content` or `text` is not modelled.
- `localStorage` and `JSON.parse` (components/YourStudyPlan.tsx:49-51) are browser storage; the saved `{coursesAndGrades, plan}` is an input value.
- React rendering, routing and state scheduling: the toggles and the mount effect are direct updates of the page's fields, and the order of the `set…` calls in the upload effect is not modelled.
- StudyPlan.StudyPlanPage.ToggleTaskCompletion: days and tasks are values, so the shallow copy at components/YourStudyPlan.tsx:42, whose in-place write also reaches the previous state's task objects, is not modelled; out-of-range indices are excluded by its precondition.
- Strings.ToLower: `toLowerCase` is modelled for ASCII letters only; other characters are left unchanged.
