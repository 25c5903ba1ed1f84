/**
 * The pure parts of the plan-generation endpoint, app/api/generate-plan/route.ts:
 * the course records rendered as `course - grade` lines, the fixed prompt
 * that embeds them, and the `||` chain that picks the plan text out of the
 * chat-completion response. The HTTP call itself is not part of this model;
 * its parsed JSON reply is an input here.
 */
module PlanGeneration {

  import opened Wrappers
  import opened Strings
  import opened TranscriptUpload

  /** One record as a line of the prompt: `${c.course} - ${c.grade}`. */
  function CourseLine(c: CourseRecord): string {
    c.course + " - " + c.grade
  }

  /** The records rendered one per line, in order. */
  function CourseLines(records: seq<CourseRecord>): (lines: seq<string>)
    ensures |lines| == |records| && forall i :: 0 <= i < |records| ==> lines[i] == CourseLine(records[i])
  {
    seq(|records|, i requires 0 <= i < |records| => CourseLine(records[i]))
  }

  /** `coursesText`: the rendered lines joined with "\n". */
  function CoursesText(records: seq<CourseRecord>): string {
    Join(CourseLines(records), "\n")
  }

  /** A record whose course and grade hold no line break. */
  predicate SingleLine(c: CourseRecord) {
    '\n' !in c.course && '\n' !in c.grade
  }

  /**
   * No records give no text. Otherwise the text ends with the last record's
   * line, so there is no trailing line break, and when no record holds a line
   * break of its own the text holds exactly n - 1 of them and splitting it at
   * "\n" gives back the rendered lines, in order.
   */
  lemma CoursesTextSpec(records: seq<CourseRecord>)
    ensures records == [] ==> CoursesText(records) == ""
    ensures |records| == 1 ==> CoursesText(records) == CourseLine(records[0])
    ensures |records| >= 2 ==>
      CoursesText(records) == CoursesText(records[..|records| - 1]) + "\n" + CourseLine(records[|records| - 1])
    ensures records != [] && (forall i :: 0 <= i < |records| ==> SingleLine(records[i])) ==>
      Count(CoursesText(records), '\n') == |records| - 1
      && Split(CoursesText(records), "\n") == CourseLines(records)
  {
    if |records| >= 2 {
      CoursesTextSnoc(records);
    }
    if records != [] && (forall i :: 0 <= i < |records| ==> SingleLine(records[i])) {
      CoursesTextLines(records);
    }
  }

  lemma CoursesTextSnoc(records: seq<CourseRecord>)
    requires |records| >= 2
    ensures CoursesText(records) == CoursesText(records[..|records| - 1]) + "\n" + CourseLine(records[|records| - 1])
  {
    var lines := CourseLines(records);
    JoinSnoc(lines, "\n");
    assert lines[..|lines| - 1] == CourseLines(records[..|records| - 1]);
  }

  lemma CoursesTextLines(records: seq<CourseRecord>)
    requires records != [] && forall i :: 0 <= i < |records| ==> SingleLine(records[i])
    ensures Count(CoursesText(records), '\n') == |records| - 1
    ensures Split(CoursesText(records), "\n") == CourseLines(records)
  {
    var lines := CourseLines(records);
    forall k | 0 <= k < |lines|
      ensures '\n' !in lines[k]
    {
      assert SingleLine(records[k]);
    }
    JoinCount(lines, '\n');
    SplitJoin(lines, '\n');
  }

  /** The prompt text before `coursesText`. */
  const PromptHead :=
    "\nYou are an SAT study advisor.\n\nHere are the student's courses and grades:\n\n"

  /** The prompt text after `coursesText`. */
  const PromptTail :=
    "\n\nPlease do the following (and keep it concise to be within token limits). Make it so that it sounds like\n"
    + "you're talking to the student:\n"
    + "1. Determine what SAT Math topics they should review based on the courses they have and haven't taken.\n"
    + "2. Determine what SAT English topics they should review based on the courses they have and haven't taken.\n"
    + "3. Provide a 7-day personalized study plan for Math and English based on this.\n"
    + "\nReturn it in organized, readable text.\n"

  /** The prompt sent to the model for the given courses text. */
  function Prompt(coursesText: string): string {
    PromptHead + coursesText + PromptTail
  }

  /** The part of a prompt between the fixed head and the fixed tail. */
  function EmbeddedCourses(prompt: string): string
    requires |prompt| >= |PromptHead| + |PromptTail|
  {
    prompt[|PromptHead|..|prompt| - |PromptTail|]
  }

  /**
   * The prompt is the fixed template with the courses text inserted once,
   * verbatim, between its head and its tail: the text can be read back out
   * of it, so distinct courses texts give distinct prompts.
   */
  lemma PromptEmbedsCourses(coursesText: string)
    ensures var p := Prompt(coursesText);
      && |p| == |PromptHead| + |coursesText| + |PromptTail|
      && p[..|PromptHead|] == PromptHead
      && p[|p| - |PromptTail|..] == PromptTail
      && EmbeddedCourses(p) == coursesText
  {
    var p := Prompt(coursesText);
    assert p[..|PromptHead|] == PromptHead;
    assert p[|p| - |PromptTail|..] == PromptTail;
    assert p[|PromptHead|..|p| - |PromptTail|] == coursesText;
  }

  lemma PromptInjective(a: string, b: string)
    requires Prompt(a) == Prompt(b)
    ensures a == b
  {
    PromptEmbedsCourses(a);
    PromptEmbedsCourses(b);
  }

  // ---------------------------------------------------------------------------
  // The response fallback
  // ---------------------------------------------------------------------------

  /** The fields of the chat-completion reply that the endpoint reads; `None` is a missing field. */
  datatype Message = Message(content: Option<string>)
  datatype Choice = Choice(message: Option<Message>, text: Option<string>)
  datatype CompletionReply = CompletionReply(choices: Option<seq<Choice>>)

  /** The body the endpoint answers with: `{ plan: content }`. */
  datatype PlanReply = PlanReply(plan: string)

  const FailedPlan := "Failed to generate study plan."

  /** A string value that `||` keeps: present and non-empty. */
  predicate Truthy(v: Option<string>) {
    v.Some? && v.value != ""
  }

  /** `data.choices?.[0]`. */
  function FirstChoice(data: CompletionReply): Option<Choice> {
    match data.choices
    case Some(cs) => if |cs| > 0 then Some(cs[0]) else None
    case None => None
  }

  /** `choice?.message?.content`. */
  function MessageContent(choice: Option<Choice>): Option<string> {
    match choice
    case Some(c) => (match c.message case Some(m) => m.content case None => None)
    case None => None
  }

  /** `choice?.text`. */
  function ChoiceText(choice: Option<Choice>): Option<string> {
    match choice
    case Some(c) => c.text
    case None => None
  }

  /** `choice?.message?.content || choice?.text || "Failed to generate study plan."`. */
  function PlanContent(data: CompletionReply): string {
    var choice := FirstChoice(data);
    if Truthy(MessageContent(choice)) then MessageContent(choice).value
    else if Truthy(ChoiceText(choice)) then ChoiceText(choice).value
    else FailedPlan
  }

  /** `NextResponse.json({ plan: content })`. */
  function Reply(data: CompletionReply): PlanReply {
    PlanReply(PlanContent(data))
  }

  /**
   * The plan is never empty, and it is either the sentinel or a string the
   * reply carried: the first choice's message content or its text.
   */
  lemma PlanFallback(data: CompletionReply)
    ensures Reply(data).plan != ""
    ensures var plan := Reply(data).plan;
      || plan == FailedPlan
      || (data.choices.Some? && |data.choices.value| > 0
          && (data.choices.value[0].message == Some(Message(Some(plan))) || data.choices.value[0].text == Some(plan)))
  {
  }

  /** A non-empty message content in the first choice is the plan, whatever the text and the other choices. */
  lemma ContentWins(content: string, text: Option<string>, rest: seq<Choice>)
    requires content != ""
    ensures Reply(CompletionReply(Some([Choice(Some(Message(Some(content))), text)] + rest))) == PlanReply(content)
  {
  }

  /** Without a non-empty content, a non-empty text of the first choice is the plan. */
  lemma TextWhenNoContent(message: Option<Message>, text: string, rest: seq<Choice>)
    requires message.None? || message.value.content.None? || message.value.content.value == ""
    requires text != ""
    ensures Reply(CompletionReply(Some([Choice(message, Some(text))] + rest))) == PlanReply(text)
  {
  }

  /** With neither a non-empty content nor a non-empty text in the first choice, the plan is the sentinel. */
  lemma SentinelWhenNeither(message: Option<Message>, text: Option<string>, rest: seq<Choice>)
    requires message.None? || message.value.content.None? || message.value.content.value == ""
    requires text.None? || text.value == ""
    ensures Reply(CompletionReply(Some([Choice(message, text)] + rest))) == PlanReply(FailedPlan)
  {
  }

  /** A reply without choices, or with an empty list of them, still answers with the sentinel plan. */
  lemma MissingChoicesGiveSentinel(data: CompletionReply)
    requires data.choices.None? || data.choices.value == []
    ensures Reply(data) == PlanReply(FailedPlan)
  {
  }

  /** An empty message content is skipped in favour of the text. */
  lemma EmptyContentFallsThrough(text: string)
    requires text != ""
    ensures Reply(CompletionReply(Some([Choice(Some(Message(Some(""))), Some(text))]))) == PlanReply(text)
  {
  }
}
