/** The tool server: the logic of its capture, context, consolidation and
    marking tools. Tool arguments arrive as values whose optional entries are
    `Option`s (`None` for a key that is absent). The structuring step, the
    searches, the statistics queries and the flag update are outside the
    model and arrive as functions or values; the clock's ISO rendering is a
    function. */
module McpServer {
  import opened Wrappers
  import opened Text
  import opened Seqs
  import opened Models
  import opened Storage
  import opened Consolidation
  import opened RagEngine

  // ---------------------------------------------------------------------
  // Lessons made serializable

  /** A date-time value becomes its ISO text; any other value is kept. */
  function Serializable(v: Value, iso: int -> string): (r: Value)
    ensures !r.Stamp?
    ensures v.Stamp? ==> r == Str(iso(v.t))
    ensures !v.Stamp? ==> r == v
  {
    match v
    case Stamp(t) => Str(iso(t))
    case _ => v
  }

  /** No value of the dictionary is a date-time. */
  predicate NoStamps(d: Dict) {
    forall i :: 0 <= i < |d| ==> !d[i].1.Stamp?
  }

  /** A lesson with every date-time value rendered: same keys in the same order. */
  function Formatted(d: Dict, iso: int -> string): (r: Dict)
    ensures |r| == |d| && NoStamps(r)
    ensures forall i :: 0 <= i < |d| ==> r[i].0 == d[i].0 && r[i].1 == Serializable(d[i].1, iso)
  {
    seq(|d|, i requires 0 <= i < |d| => (d[i].0, Serializable(d[i].1, iso)))
  }

  function AllFormatted(lessons: seq<Dict>, iso: int -> string): (r: seq<Dict>)
    ensures |r| == |lessons|
    ensures forall i :: 0 <= i < |lessons| ==> r[i] == Formatted(lessons[i], iso)
  {
    seq(|lessons|, i requires 0 <= i < |lessons| => Formatted(lessons[i], iso))
  }

  /** A lesson without date-times is left as it is, so formatting twice changes nothing. */
  lemma FormattedIdempotent(d: Dict, iso: int -> string)
    ensures NoStamps(d) ==> Formatted(d, iso) == d
    ensures Formatted(Formatted(d, iso), iso) == Formatted(d, iso)
  {
    if NoStamps(d) {
      assert forall i :: 0 <= i < |d| ==> Formatted(d, iso)[i] == d[i];
    }
    var f := Formatted(d, iso);
    assert forall i :: 0 <= i < |f| ==> Formatted(f, iso)[i] == f[i];
  }

  /** One lesson, key by key. */
  method FormatLesson(lesson: Dict, iso: int -> string) returns (formatted: Dict)
    ensures formatted == Formatted(lesson, iso)
  {
    formatted := [];
    for j := 0 to |lesson|
      invariant formatted == Formatted(lesson[..j], iso)
    {
      var (key, value) := lesson[j];
      if value.Stamp? {
        formatted := formatted + [(key, Str(iso(value.t)))];
      } else {
        formatted := formatted + [(key, value)];
      }
    }
    assert lesson[..|lesson|] == lesson;
  }

  /** `_format_lessons`: every lesson formatted, in order. */
  method FormatLessons(lessons: seq<Dict>, iso: int -> string) returns (formatted: seq<Dict>)
    ensures formatted == AllFormatted(lessons, iso)
  {
    formatted := [];
    for i := 0 to |lessons|
      invariant formatted == AllFormatted(lessons[..i], iso)
    {
      var one := FormatLesson(lessons[i], iso);
      formatted := formatted + [one];
    }
    assert lessons[..|lessons|] == lessons;
  }

  // ---------------------------------------------------------------------
  // Project name

  const DefaultProject: string := "default"

  /** Folder names too generic to name a project. */
  const GenericNames: set<string> := {
    "home", "users", "user", "desktop", "documents", "downloads", "tmp", "temp", "root",
    "var", "opt", "src", "source", "code", "projects", "repos", "git", "c:", "d:", "e:"}

  predicate IsGeneric(name: string) {
    Lower(name) in GenericNames
  }

  /** A usable project name: non-empty, without spaces and without surrounding whitespace. */
  predicate IsCleanName(name: string) {
    name != "" && ' ' !in name && IsStripped(name)
  }

  /** `strip().replace(' ', '_')`, with "default" for an empty result. The result is clean,
      and a clean name is kept as it is. */
  function CleanName(name: string): (r: string)
    ensures IsCleanName(r)
    ensures IsCleanName(name) ==> r == name
  {
    var c := ReplaceChar(Strip(name), ' ', '_');
    assert IsCleanName(name) ==> c == name by {
      if IsCleanName(name) {
        assert Strip(name) == name;
      }
    }
    if c == "" then DefaultProject else c
  }

  /** The project name for a working directory named `name` inside one named `parent`. A
      generic name gives way to the parent's when that is not generic, and to "default"
      when it is; a name that is not generic is used. The result is always clean. */
  function ProjectNameFor(name: string, parent: string): (r: string)
    ensures IsCleanName(r)
    ensures IsGeneric(name) && IsGeneric(parent) ==> r == DefaultProject
    ensures IsGeneric(name) && !IsGeneric(parent) ==> r == CleanName(parent)
    ensures !IsGeneric(name) ==> r == CleanName(name)
    ensures !IsGeneric(name) && IsCleanName(name) ==> r == name
  {
    if IsGeneric(name) then
      if IsGeneric(parent) then DefaultProject else CleanName(parent)
    else CleanName(name)
  }

  /** `_detect_project_name`: the names of the working directory and its parent, or nothing
      when they could not be read, in which case the name is "default". */
  function DetectProjectName(cwd: Option<(string, string)>): (r: string)
    ensures IsCleanName(r)
    ensures cwd.None? ==> r == DefaultProject
  {
    match cwd
    case None => DefaultProject
    case Some((name, parent)) => ProjectNameFor(name, parent)
  }

  /** `args.get("project_name") or _detect_project_name()` */
  function ProjectArg(given: Option<string>, detected: string): (r: string)
    ensures Given(given) ==> r == given.value
    ensures !Given(given) ==> r == detected
  {
    if Given(given) then given.value else detected
  }

  // ---------------------------------------------------------------------
  // Capture text

  /** The headings a capture text can use. */
  datatype Heading = TaskH | ContextH | AlternativesH | DecisionH | ReasoningH | LessonLearnedH
                   | WhatH | WhyH | LessonH

  function HeadingText(h: Heading): string {
    match h
    case TaskH => "## Task\n"
    case ContextH => "## Context\n"
    case AlternativesH => "## Alternatives considered\n"
    case DecisionH => "## Decision\n"
    case ReasoningH => "## Reasoning\n"
    case LessonLearnedH => "## Lesson learned\n"
    case WhatH => "## What I did\n"
    case WhyH => "## Why\n"
    case LessonH => "## Lesson\n"
  }

  /** The place of each heading in the text of its tool. */
  function Rank(h: Heading): nat {
    match h
    case TaskH => 0
    case ContextH => 1
    case AlternativesH => 2
    case DecisionH => 3
    case ReasoningH => 4
    case LessonLearnedH => 5
    case WhatH => 0
    case WhyH => 1
    case LessonH => 2
  }

  /** One section of a capture text: a heading and its body. */
  datatype Section = Section(heading: Heading, body: string)

  function Rendered(sections: seq<Section>): (r: seq<string>)
    ensures |r| == |sections|
    ensures forall i :: 0 <= i < |sections| ==> r[i] == HeadingText(sections[i].heading) + sections[i].body
  {
    seq(|sections|, i requires 0 <= i < |sections| => HeadingText(sections[i].heading) + sections[i].body)
  }

  function Headings(sections: seq<Section>): (r: seq<Heading>)
    ensures |r| == |sections|
    ensures forall i :: 0 <= i < |sections| ==> r[i] == sections[i].heading
  {
    seq(|sections|, i requires 0 <= i < |sections| => sections[i].heading)
  }

  /** Headings appear in their fixed order, each at most once. */
  predicate InOrder(hs: seq<Heading>) {
    forall i, j :: 0 <= i < j < |hs| ==> Rank(hs[i]) < Rank(hs[j])
  }

  /** Sections are separated by a blank line. */
  function SectionText(sections: seq<Section>): string {
    Join("\n\n", Rendered(sections))
  }

  /** An optional list argument that is present and non-empty. */
  predicate ListGiven(xs: Option<seq<string>>) {
    xs.Some? && |xs.value| > 0
  }

  /** One "- " line per alternative. */
  function Bullets(alternatives: seq<string>): string {
    Join("\n", seq(|alternatives|, i requires 0 <= i < |alternatives| => "- " + alternatives[i]))
  }

  datatype DecisionArgs = DecisionArgs(
    task: string,
    context: Option<string>,
    alternatives: Option<seq<string>>,
    decision: string,
    reasoning: string,
    lesson: Option<string>,
    codeChanges: Option<string>,
    projectName: Option<string>,
    sourceAssistant: Option<string>)

  /** The sections of a decision capture. */
  function DecisionSections(a: DecisionArgs): seq<Section> {
    [Section(TaskH, a.task)] +
    (if Given(a.context) then [Section(ContextH, a.context.value)] else []) +
    (if ListGiven(a.alternatives) then [Section(AlternativesH, Bullets(a.alternatives.value))] else []) +
    [Section(DecisionH, a.decision), Section(ReasoningH, a.reasoning)] +
    (if Given(a.lesson) then [Section(LessonLearnedH, a.lesson.value)] else [])
  }

  /** The headings of a decision capture, in the order they appear. */
  function DecisionHeadings(a: DecisionArgs): seq<Heading> {
    [TaskH] + (if Given(a.context) then [ContextH] else []) +
    (if ListGiven(a.alternatives) then [AlternativesH] else []) + [DecisionH] + [ReasoningH] +
    (if Given(a.lesson) then [LessonLearnedH] else [])
  }

  /** The decision sections carry exactly those headings, in that order. */
  lemma DecisionSectionHeadings(a: DecisionArgs)
    ensures Headings(DecisionSections(a)) == DecisionHeadings(a)
  {
  }

  /** The decision text keeps the fixed heading order and opens with the task. */
  lemma DecisionSectionsOrder(a: DecisionArgs)
    ensures InOrder(DecisionHeadings(a)) && DecisionHeadings(a)[0] == TaskH
  {
    var h0 := [TaskH];
    var h1 := OptionalAfter(h0, Given(a.context), ContextH);
    var h2 := OptionalAfter(h1, ListGiven(a.alternatives), AlternativesH);
    var h3 := OptionalAfter(h2, true, DecisionH);
    var h4 := OptionalAfter(h3, true, ReasoningH);
    var h5 := OptionalAfter(h4, Given(a.lesson), LessonLearnedH);
  }

  /** The decision text always has the decision and the reasoning, has each optional section
      exactly when its argument is given, and no heading of the quick capture. */
  lemma DecisionSectionsPresent(a: DecisionArgs)
    ensures var hs := DecisionHeadings(a);
            DecisionH in hs && ReasoningH in hs &&
            (ContextH in hs <==> Given(a.context)) &&
            (AlternativesH in hs <==> ListGiven(a.alternatives)) &&
            (LessonLearnedH in hs <==> Given(a.lesson)) &&
            (forall h :: h in hs ==> !h.WhatH? && !h.WhyH? && !h.LessonH?)
  {
  }

  /** Appends `h` when `present`, keeping the order when `h` ranks after everything so far. */
  lemma OptionalAfter(hs: seq<Heading>, present: bool, h: Heading) returns (r: seq<Heading>)
    requires InOrder(hs)
    requires forall x :: x in hs ==> Rank(x) < Rank(h)
    ensures r == hs + (if present then [h] else [])
    ensures InOrder(r)
    ensures forall x :: x in r ==> Rank(x) <= Rank(h)
  {
    r := hs + (if present then [h] else []);
    if present {
      forall i, j | 0 <= i < j < |r| ensures Rank(r[i]) < Rank(r[j]) {
        if j == |hs| {
          assert r[i] in hs;
        }
      }
    }
  }

  /** `_capture_decision` assembling its text: sections appended in order, the optional ones
      when their argument is given. */
  method BuildDecisionText(a: DecisionArgs) returns (text: string)
    ensures text == SectionText(DecisionSections(a))
  {
    var parts: seq<Section> := [Section(TaskH, a.task)];
    if Given(a.context) {
      parts := parts + [Section(ContextH, a.context.value)];
    }
    if ListGiven(a.alternatives) {
      parts := parts + [Section(AlternativesH, Bullets(a.alternatives.value))];
    }
    parts := parts + [Section(DecisionH, a.decision)];
    parts := parts + [Section(ReasoningH, a.reasoning)];
    if Given(a.lesson) {
      parts := parts + [Section(LessonLearnedH, a.lesson.value)];
    }
    assert parts == DecisionSections(a);
    text := SectionText(parts);
  }

  datatype QuickArgs = QuickArgs(
    what: string,
    why: string,
    lesson: Option<string>,
    projectName: Option<string>,
    sourceAssistant: Option<string>)

  function QuickSections(a: QuickArgs): seq<Section> {
    [Section(WhatH, a.what), Section(WhyH, a.why)] +
    (if Given(a.lesson) then [Section(LessonH, a.lesson.value)] else [])
  }

  /** The quick text is what, why and, when given, the lesson, in that order. */
  lemma QuickSectionsOrder(a: QuickArgs)
    ensures var hs := Headings(QuickSections(a));
            InOrder(hs) && hs[0] == WhatH && hs[1] == WhyH &&
            (LessonH in hs <==> Given(a.lesson)) &&
            |hs| == 2 + (if Given(a.lesson) then 1 else 0)
  {
    var hs := Headings(QuickSections(a));
    assert hs == [WhatH, WhyH] + (if Given(a.lesson) then [LessonH] else []);
    assert forall i :: 0 <= i < |hs| ==> Rank(hs[i]) == i;
  }

  /** `_capture_quick` assembling its text. */
  method BuildQuickText(a: QuickArgs) returns (text: string)
    ensures text == SectionText(QuickSections(a))
  {
    var parts := [Section(WhatH, a.what), Section(WhyH, a.why)];
    if Given(a.lesson) {
      parts := parts + [Section(LessonH, a.lesson.value)];
    }
    assert parts == QuickSections(a);
    text := SectionText(parts);
  }

  datatype ThinkingArgs = ThinkingArgs(
    thinkingText: string,
    userPrompt: Option<string>,
    codeChanges: Option<string>,
    projectName: Option<string>,
    sourceAssistant: Option<string>)

  // ---------------------------------------------------------------------
  // Fallback episodes, stored when structuring fails

  const UnknownAssistant: string := "unknown"
  const DecisionContextDefault: string := "Captured via structured decision tool"
  const FallbackTags: seq<string> := ["mcp", "fallback", "raw_capture"]

  /** `[lesson] if lesson else []` */
  function LessonList(lesson: Option<string>): (r: seq<string>)
    ensures Given(lesson) ==> r == [lesson.value]
    ensures !Given(lesson) ==> r == []
  {
    if Given(lesson) then [lesson.value] else []
  }

  /** The decision stored without structuring: the arguments as they came, a `decision`
      kind, and the "alternatives" tag exactly when alternatives were given. */
  function DecisionFallback(a: DecisionArgs, text: string, project: string, assistant: string, id: string, now: int)
    : (e: Episode)
    ensures e.Valid() && e.HasDefaultUsage() && e.episodeType == Decision
    ensures e.task == a.task && e.context == a.context.GetOr(DecisionContextDefault)
    ensures e.trace.rawThinking == text && e.trace.alternatives == a.alternatives.GetOr([])
    ensures e.trace.decisionFactors == [a.reasoning]
    ensures e.solution == a.decision && e.solutionSummary == a.decision
    ensures e.lessons == LessonList(a.lesson)
    ensures "alternatives" in e.tags <==> ListGiven(a.alternatives)
    ensures e.tags == ["mcp", "capture_decision", "fallback"] + (if ListGiven(a.alternatives) then ["alternatives"] else [])
    ensures e.projectName == project && e.sourceAssistant == assistant
  {
    var tags := ["mcp", "capture_decision", "fallback"] + (if ListGiven(a.alternatives) then ["alternatives"] else []);
    NewEpisode(id, now, a.task, a.context.GetOr(DecisionContextDefault),
               ReasoningTrace(text, a.alternatives.GetOr([]), [a.reasoning], None),
               a.decision, a.decision, Decision, tags, [], LessonList(a.lesson), assistant, project)
  }

  /** The quick capture stored without structuring: a `learning` episode whose task and
      solution are what was done and whose context gives the reason. */
  function QuickFallback(a: QuickArgs, text: string, project: string, assistant: string, id: string, now: int)
    : (e: Episode)
    ensures e.Valid() && e.HasDefaultUsage() && e.episodeType == Learning
    ensures e.task == a.what && e.context == "Reason: " + a.why && e.trace.rawThinking == text
    ensures e.solution == a.what && e.solutionSummary == a.what
    ensures e.lessons == LessonList(a.lesson) && e.tags == ["mcp", "capture_quick", "fallback"]
    ensures e.projectName == project && e.sourceAssistant == assistant
  {
    NewEpisode(id, now, a.what, "Reason: " + a.why, ReasoningTrace(text, [], [], None),
               a.what, a.what, Learning, ["mcp", "capture_quick", "fallback"], [], LessonList(a.lesson),
               assistant, project)
  }

  /** The raw thinking stored without structuring: a `learning` episode holding the text,
      the code changes (or nothing) as solution, and no lessons. */
  function ThinkingFallback(a: ThinkingArgs, project: string, assistant: string, id: string, now: int)
    : (e: Episode)
    ensures e.Valid() && e.HasDefaultUsage() && e.episodeType == Learning
    ensures e.trace.rawThinking == a.thinkingText && e.solution == a.codeChanges.GetOr("")
    ensures e.lessons == [] && e.tags == FallbackTags
    ensures e.projectName == project && e.sourceAssistant == assistant
  {
    NewEpisode(id, now, "Raw technical reasoning capture", "Captured via MCP fallback without LLM structuring",
               ReasoningTrace(a.thinkingText, [], [], None), a.codeChanges.GetOr(""),
               "Raw capture stored without LLM structuring", Learning, FallbackTags, [], [], assistant, project)
  }

  /** The structuring step: given the capture, the project and the assistant, an episode, or
      nothing when it fails. */
  type Structurer = (ProcessedInput, string, string) -> Option<Episode>

  /** Structures the capture, falls back when that fails, and stores the episode. */
  method Capture(store: MemoryStorage, input: ProcessedInput, project: string, assistant: string,
                 process: Structurer, fallback: Episode)
    returns (stored: Episode, r: Result<string, string>)
    modifies store
    ensures stored == process(input, project, assistant).GetOr(fallback)
    ensures FindRecord(old(store.Records()), stored.id).None? ==> r == Success(stored.id)
    ensures r.Success? ==> store.EpisodeById(stored.id) == Success(Some(WithDefaultUsage(stored)))
  {
    var processed := process(input, project, assistant);
    if processed.Some? {
      stored := processed.value;
    } else {
      stored := fallback;
    }
    r := store.StoreEpisode(stored);
  }

  /** `capture_decision`: an episode is stored whether or not structuring succeeds. */
  method CaptureDecision(store: MemoryStorage, a: DecisionArgs, detected: string, process: Structurer,
                         id: string, now: int)
    returns (stored: Episode, r: Result<string, string>)
    modifies store
    ensures var project := ProjectArg(a.projectName, detected);
            var assistant := a.sourceAssistant.GetOr(UnknownAssistant);
            var text := SectionText(DecisionSections(a));
            stored == process(ProcessedInput(text, None, a.codeChanges, "mcp", now), project, assistant)
                        .GetOr(DecisionFallback(a, text, project, assistant, id, now))
    ensures FindRecord(old(store.Records()), stored.id).None? ==> r == Success(stored.id)
    ensures r.Success? ==> store.EpisodeById(stored.id) == Success(Some(WithDefaultUsage(stored)))
  {
    var text := BuildDecisionText(a);
    var project := ProjectArg(a.projectName, detected);
    var assistant := a.sourceAssistant.GetOr(UnknownAssistant);
    var input := ProcessedInput(text, None, a.codeChanges, "mcp", now);
    stored, r := Capture(store, input, project, assistant, process,
                         DecisionFallback(a, text, project, assistant, id, now));
  }

  /** `capture_quick`: an episode is stored whether or not structuring succeeds. */
  method CaptureQuick(store: MemoryStorage, a: QuickArgs, detected: string, process: Structurer,
                      id: string, now: int)
    returns (stored: Episode, r: Result<string, string>)
    modifies store
    ensures var project := ProjectArg(a.projectName, detected);
            var assistant := a.sourceAssistant.GetOr(UnknownAssistant);
            var text := SectionText(QuickSections(a));
            stored == process(ProcessedInput(text, None, None, "mcp", now), project, assistant)
                        .GetOr(QuickFallback(a, text, project, assistant, id, now))
    ensures FindRecord(old(store.Records()), stored.id).None? ==> r == Success(stored.id)
    ensures r.Success? ==> store.EpisodeById(stored.id) == Success(Some(WithDefaultUsage(stored)))
  {
    var text := BuildQuickText(a);
    var project := ProjectArg(a.projectName, detected);
    var assistant := a.sourceAssistant.GetOr(UnknownAssistant);
    var input := ProcessedInput(text, None, None, "mcp", now);
    stored, r := Capture(store, input, project, assistant, process,
                         QuickFallback(a, text, project, assistant, id, now));
  }

  /** `capture_thinking`: an episode is stored whether or not structuring succeeds. */
  method CaptureThinking(store: MemoryStorage, a: ThinkingArgs, detected: string, process: Structurer,
                         id: string, now: int)
    returns (stored: Episode, r: Result<string, string>)
    modifies store
    ensures var project := ProjectArg(a.projectName, detected);
            var assistant := a.sourceAssistant.GetOr(UnknownAssistant);
            stored == process(ProcessedInput(a.thinkingText, a.userPrompt, a.codeChanges, "mcp", now), project, assistant)
                        .GetOr(ThinkingFallback(a, project, assistant, id, now))
    ensures FindRecord(old(store.Records()), stored.id).None? ==> r == Success(stored.id)
    ensures r.Success? ==> store.EpisodeById(stored.id) == Success(Some(WithDefaultUsage(stored)))
  {
    var project := ProjectArg(a.projectName, detected);
    var assistant := a.sourceAssistant.GetOr(UnknownAssistant);
    var input := ProcessedInput(a.thinkingText, a.userPrompt, a.codeChanges, "mcp", now);
    stored, r := Capture(store, input, project, assistant, process, ThinkingFallback(a, project, assistant, id, now));
  }

  // ---------------------------------------------------------------------
  // Project context

  /** At this many episodes the context switches from everything to a selection. */
  const ContextThreshold: nat := 20
  const WarningSearchTopK: int := 10
  const RelevantSearchTopK: int := 5
  const RecentLimit: nat := 5
  const AvoidLesson: string := "Avoid this approach"

  datatype Mode = Empty | FullContext | SmartContext

  /** An antipattern warning; the reasoning is included on request. */
  datatype Warning = Warning(task: string, lesson: string, relevance: real, reasoning: Option<string>)

  function WarningOf(r: MemorySearchResult, includeReasoning: bool): (w: Warning)
    ensures w.task == r.episode.task && w.relevance == r.relevance
    ensures w.lesson == if |r.episode.lessons| > 0 then r.episode.lessons[0] else AvoidLesson
    ensures w.reasoning.Some? <==> includeReasoning
  {
    Warning(r.episode.task, if |r.episode.lessons| > 0 then r.episode.lessons[0] else AvoidLesson,
            r.relevance, if includeReasoning then Some(r.episode.trace.rawThinking) else None)
  }

  predicate IsAntipatternHit(r: MemorySearchResult) {
    r.episode.isAntipattern
  }

  /** One warning per antipattern among the results, in result order. There are none exactly
      when no result is an antipattern. */
  function Warnings(results: seq<MemorySearchResult>, includeReasoning: bool): (ws: seq<Warning>)
    ensures |ws| <= |results|
    ensures ws == [] <==> forall i :: 0 <= i < |results| ==> !IsAntipatternHit(results[i])
    decreases |results|
  {
    if |results| == 0 then []
    else
      var n := |results| - 1;
      assert forall i :: 0 <= i < n ==> results[..n][i] == results[i];
      Warnings(results[..n], includeReasoning) +
      (if IsAntipatternHit(results[n]) then [WarningOf(results[n], includeReasoning)] else [])
  }

  /** Every warning is the warning of an antipattern result, and every antipattern result
      has its warning. */
  lemma WarningsFromAntipatterns(results: seq<MemorySearchResult>, includeReasoning: bool)
    ensures forall w :: w in Warnings(results, includeReasoning) ==>
              exists i :: 0 <= i < |results| && IsAntipatternHit(results[i]) && w == WarningOf(results[i], includeReasoning)
    ensures forall i :: 0 <= i < |results| && IsAntipatternHit(results[i]) ==>
              WarningOf(results[i], includeReasoning) in Warnings(results, includeReasoning)
  {
    forall w | w in Warnings(results, includeReasoning)
      ensures exists i :: 0 <= i < |results| && IsAntipatternHit(results[i]) && w == WarningOf(results[i], includeReasoning)
    {
      WarningSound(results, includeReasoning, w);
    }
    forall i | 0 <= i < |results| && IsAntipatternHit(results[i])
      ensures WarningOf(results[i], includeReasoning) in Warnings(results, includeReasoning)
    {
      WarningListed(results, includeReasoning, i);
    }
  }

  /** A warning is the warning of some antipattern result. */
  lemma {:induction false} WarningSound(results: seq<MemorySearchResult>, includeReasoning: bool, w: Warning)
    requires w in Warnings(results, includeReasoning)
    ensures exists i :: 0 <= i < |results| && IsAntipatternHit(results[i]) && w == WarningOf(results[i], includeReasoning)
    decreases |results|
  {
    var n := |results| - 1;
    var prefix := results[..n];
    if w in Warnings(prefix, includeReasoning) {
      WarningSound(prefix, includeReasoning, w);
      var i :| 0 <= i < |prefix| && IsAntipatternHit(prefix[i]) && w == WarningOf(prefix[i], includeReasoning);
      assert prefix[i] == results[i];
    }
  }

  /** The warning of antipattern result `i` is listed. */
  lemma {:induction false} WarningListed(results: seq<MemorySearchResult>, includeReasoning: bool, i: int)
    requires 0 <= i < |results| && IsAntipatternHit(results[i])
    ensures WarningOf(results[i], includeReasoning) in Warnings(results, includeReasoning)
    decreases |results|
  {
    var n := |results| - 1;
    if i < n {
      assert results[..n][i] == results[i];
      WarningListed(results[..n], includeReasoning, i);
    }
  }

  /** `collect warnings`: one pass over the results, appending a warning per antipattern. */
  method CollectWarnings(results: seq<MemorySearchResult>, includeReasoning: bool) returns (warnings: seq<Warning>)
    ensures warnings == Warnings(results, includeReasoning)
  {
    warnings := [];
    for i := 0 to |results|
      invariant warnings == Warnings(results[..i], includeReasoning)
    {
      assert results[..i + 1][..i] == results[..i];
      if IsAntipatternHit(results[i]) {
        warnings := warnings + [WarningOf(results[i], includeReasoning)];
      }
    }
    assert results[..|results|] == results;
  }

  /** A meta-memory as the context shows it: at most three lessons and two best practices. */
  datatype MetaBrief = MetaBrief(
    id: string,
    pattern: string,
    lessons: seq<string>,
    bestPractices: seq<string>,
    technologies: seq<string>,
    episodeCount: int,
    confidence: real,
    relevance: Option<real>)

  function MetaBriefOf(m: MetaMemory, relevance: Option<real>): (b: MetaBrief)
    ensures b.id == m.id && b.pattern == m.patternSummary && b.relevance == relevance
    ensures b.lessons <= m.lessons && |b.lessons| <= 3 && (|m.lessons| >= 3 ==> |b.lessons| == 3)
    ensures b.bestPractices <= m.bestPractices && |b.bestPractices| <= 2 && (|m.bestPractices| >= 2 ==> |b.bestPractices| == 2)
  {
    MetaBrief(m.id, m.patternSummary, Take(m.lessons, 3), Take(m.bestPractices, 2), m.technologies,
              m.episodeCount, m.confidence, relevance)
  }

  function SearchedMetaBriefs(results: seq<MetaMemorySearchResult>): (r: seq<MetaBrief>)
    ensures |r| == |results|
    ensures forall i :: 0 <= i < |results| ==> r[i] == MetaBriefOf(results[i].metaMemory, Some(results[i].relevance))
  {
    seq(|results|, i requires 0 <= i < |results| => MetaBriefOf(results[i].metaMemory, Some(results[i].relevance)))
  }

  function RecentMetaBriefs(metas: seq<MetaMemory>): (r: seq<MetaBrief>)
    ensures |r| == |metas|
    ensures forall i :: 0 <= i < |metas| ==> r[i] == MetaBriefOf(metas[i], None)
  {
    seq(|metas|, i requires 0 <= i < |metas| => MetaBriefOf(metas[i], None))
  }

  /** A timeline entry as the context shows it. */
  datatype EpisodeBrief = EpisodeBrief(id: string, episodeType: string, task: string, summary: string,
                                       date: string, tags: seq<string>)

  function EpisodeBriefs(entries: seq<TimelineEntry>): (r: seq<EpisodeBrief>)
    ensures |r| == |entries|
    ensures forall i :: 0 <= i < |entries| ==>
              r[i].id == entries[i].id && r[i].episodeType == entries[i].episodeType &&
              r[i].task == entries[i].task && r[i].summary == entries[i].summary &&
              r[i].date == entries[i].date && r[i].tags == entries[i].tags
  {
    seq(|entries|, i requires 0 <= i < |entries| =>
      EpisodeBrief(entries[i].id, entries[i].episodeType, entries[i].task, entries[i].summary,
                   entries[i].date, entries[i].tags))
  }

  /** A search result as the context shows it; the reasoning trace is included on request. */
  datatype RelevantEpisode = RelevantEpisode(
    id: string,
    episodeType: string,
    task: string,
    summary: string,
    relevance: real,
    tags: seq<string>,
    lessons: seq<string>,
    isCritical: bool,
    reasoning: Option<(string, seq<string>, seq<string>)>)

  function RelevantEpisodes(results: seq<MemorySearchResult>, includeReasoning: bool): (r: seq<RelevantEpisode>)
    ensures |r| == |results|
    ensures forall i :: 0 <= i < |results| ==>
              var e := results[i].episode;
              r[i].id == e.id && r[i].episodeType == TypeValue(e.episodeType) && r[i].task == e.task &&
              r[i].summary == e.solutionSummary && r[i].relevance == results[i].relevance &&
              r[i].tags == e.tags && r[i].lessons == e.lessons && r[i].isCritical == e.isCritical &&
              (r[i].reasoning.Some? <==> includeReasoning) &&
              (includeReasoning ==>
                 r[i].reasoning.value == (e.trace.rawThinking, e.trace.alternatives, e.trace.decisionFactors))
  {
    seq(|results|, i requires 0 <= i < |results| =>
      var e := results[i].episode;
      RelevantEpisode(e.id, TypeValue(e.episodeType), e.task, e.solutionSummary, results[i].relevance,
                      e.tags, e.lessons, e.isCritical,
                      if includeReasoning then Some((e.trace.rawThinking, e.trace.alternatives, e.trace.decisionFactors))
                      else None))
  }

  /** What the context tool reads from its collaborators: the statistics' episode count, the
      project's meta-memory count, the episode search for the topic by `top_k`, the top three
      meta-memories for the topic, the project's three latest meta-memories, whether
      consolidation is due, the timeline by limit, the project's lessons and the ISO
      rendering of a date-time. */
  datatype ContextSources = ContextSources(
    total: nat,
    totalMeta: nat,
    search: int -> seq<MemorySearchResult>,
    metaSearch: seq<MetaMemorySearchResult>,
    recentMetas: seq<MetaMemory>,
    shouldConsolidate: bool,
    timeline: nat -> seq<TimelineEntry>,
    lessons: seq<Dict>,
    iso: int -> string)

  /** The context report; the optional parts are `None` when their key is absent, and the
      warnings key is present exactly when `warnings` is non-empty. */
  datatype ProjectContext = ProjectContext(
    mode: Mode,
    total: nat,
    totalMeta: nat,
    warnings: seq<Warning>,
    metaMemories: seq<MetaBrief>,
    consolidationRecommended: bool,
    episodes: Option<seq<EpisodeBrief>>,
    recentEpisodes: Option<seq<EpisodeBrief>>,
    relevantEpisodes: Option<seq<RelevantEpisode>>,
    aggregatedLessons: Option<seq<Dict>>,
    tip: bool)

  /** The meta-memories shown: found by topic, or the latest ones, when the project has any. */
  function ContextMetas(topic: string, src: ContextSources): seq<MetaBrief> {
    if src.totalMeta == 0 then []
    else if topic != "" then SearchedMetaBriefs(src.metaSearch)
    else RecentMetaBriefs(src.recentMetas)
  }

  /** `_get_project_context`. An empty memory returns at once in mode `Empty`. Otherwise
      the antipattern warnings for the topic come first, then meta-memories, then the
      consolidation advice, then episodes: the whole timeline below 20 episodes, the five
      latest and the topic's five best matches from 20 on. */
  function ProjectContextOf(topic: string, includeReasoning: bool, src: ContextSources): (c: ProjectContext)
    ensures c.total == src.total
    ensures c.mode == Empty <==> src.total == 0
    ensures c.mode == FullContext <==> 0 < src.total < ContextThreshold
    ensures c.mode == SmartContext <==> src.total >= ContextThreshold
    ensures c.mode == Empty ==>
              c.warnings == [] && c.metaMemories == [] && !c.consolidationRecommended &&
              c.episodes.None? && c.recentEpisodes.None? && c.relevantEpisodes.None? && c.aggregatedLessons.None?
    ensures |c.warnings| > 0 <==>
              src.total > 0 && topic != "" &&
              exists i :: 0 <= i < |src.search(WarningSearchTopK)| && IsAntipatternHit(src.search(WarningSearchTopK)[i])
    ensures c.episodes.Some? <==> c.mode == FullContext
    ensures c.episodes.Some? ==> |c.episodes.value| == |src.timeline(src.total)|
    ensures c.recentEpisodes.Some? <==> c.mode == SmartContext
    ensures c.recentEpisodes.Some? ==> |c.recentEpisodes.value| == |src.timeline(RecentLimit)|
    ensures c.relevantEpisodes.Some? <==> c.mode == SmartContext && topic != ""
    ensures c.tip <==> c.mode == SmartContext && topic == ""
    ensures c.aggregatedLessons.Some? <==> c.mode != Empty && topic != ""
    ensures c.aggregatedLessons.Some? ==> c.aggregatedLessons.value == AllFormatted(src.lessons, src.iso)
  {
    if src.total == 0 then
      ProjectContext(Empty, 0, src.totalMeta, [], [], false, None, None, None, None, false)
    else
      var warnings := if topic != "" then Warnings(src.search(WarningSearchTopK), includeReasoning) else [];
      var lessons := if topic != "" then Some(AllFormatted(src.lessons, src.iso)) else None;
      var metas := ContextMetas(topic, src);
      if src.total < ContextThreshold then
        ProjectContext(FullContext, src.total, src.totalMeta, warnings, metas, src.shouldConsolidate,
                       Some(EpisodeBriefs(src.timeline(src.total))), None, None, lessons, false)
      else
        ProjectContext(SmartContext, src.total, src.totalMeta, warnings, metas, src.shouldConsolidate,
                       None, Some(EpisodeBriefs(src.timeline(RecentLimit))),
                       if topic != "" then Some(RelevantEpisodes(src.search(RelevantSearchTopK), includeReasoning)) else None,
                       lessons, topic == "")
  }

  /** Fills the report step by step: the early return for an empty memory, the warnings
      loop, the meta-memories, the advice, then the episodes of the mode. */
  method GetProjectContext(topic: string, includeReasoning: bool, src: ContextSources) returns (c: ProjectContext)
    ensures c == ProjectContextOf(topic, includeReasoning, src)
  {
    c := ProjectContext(Empty, src.total, src.totalMeta, [], [], false, None, None, None, None, false);
    if src.total == 0 {
      return;
    }
    var warnings: seq<Warning> := [];
    if topic != "" {
      warnings := CollectWarnings(src.search(WarningSearchTopK), includeReasoning);
    }
    if |warnings| > 0 {
      c := c.(warnings := warnings);
    }
    c := c.(metaMemories := ContextMetas(topic, src));
    if src.shouldConsolidate {
      c := c.(consolidationRecommended := true);
    }
    if src.total < ContextThreshold {
      c := c.(mode := FullContext);
      c := c.(episodes := Some(EpisodeBriefs(src.timeline(src.total))));
      if topic != "" {
        var lessons := FormatLessons(src.lessons, src.iso);
        c := c.(aggregatedLessons := Some(lessons));
      }
    } else {
      c := c.(mode := SmartContext);
      c := c.(recentEpisodes := Some(EpisodeBriefs(src.timeline(RecentLimit))));
      if topic != "" {
        c := c.(relevantEpisodes := Some(RelevantEpisodes(src.search(RelevantSearchTopK), includeReasoning)));
        var lessons := FormatLessons(src.lessons, src.iso);
        c := c.(aggregatedLessons := Some(lessons));
      } else {
        c := c.(tip := true);
      }
    }
  }

  // ---------------------------------------------------------------------
  // Consolidation tool

  datatype ConsolidateReply =
    | MissingProject
    | TooFewEpisodes(total: nat, minRequired: int)
    | NoClusters(total: nat, minClusterSize: int)
    | Consolidated(generated: nat, episodesConsolidated: int, metaMemories: seq<MetaMemory>)

  /** `sum(mm.episode_count for mm in meta_memories)` */
  function EpisodeCountSum(ms: seq<MetaMemory>): int
    decreases |ms|
  {
    if |ms| == 0 then 0 else EpisodeCountSum(ms[..|ms| - 1]) + ms[|ms| - 1].episodeCount
  }

  lemma {:induction false} EpisodeCountSumAtLeast(ms: seq<MetaMemory>, minSize: int)
    requires forall m :: m in ms ==> m.episodeCount >= minSize
    ensures EpisodeCountSum(ms) >= minSize * |ms|
    decreases |ms|
  {
    if |ms| > 0 {
      var p := ms[..|ms| - 1];
      assert forall m :: m in p ==> m.episodeCount >= minSize by {
        forall m | m in p ensures m.episodeCount >= minSize {
          var j :| 0 <= j < |p| && p[j] == m;
          assert ms[j] == m;
        }
      }
      EpisodeCountSumAtLeast(p, minSize);
      assert ms[|ms| - 1].episodeCount >= minSize by {
        assert ms[|ms| - 1] in ms;
      }
      assert minSize * |ms| == minSize * |p| + minSize;
    }
  }

  /** The reply once the guards pass: nothing found, or the meta-memories produced. */
  function ConsolidateReplyOf(total: nat, minSize: int, metas: seq<MetaMemory>): ConsolidateReply {
    if |metas| == 0 then NoClusters(total, minSize) else Consolidated(|metas|, EpisodeCountSum(metas), metas)
  }

  /** A successful consolidation reports at least `min_cluster_size` consolidated episodes
      per meta-memory, each meta-memory sound. */
  lemma ConsolidatedCounts(
    total: nat, project: string, episodes: seq<Episode>, embeddedIds: seq<string>, labels: seq<int>, minSize: int,
    reply: nat -> Option<string>, decode: string -> Option<SynthesisData>, freshId: nat -> string, now: int)
    requires |labels| == |embeddedIds|
    ensures var metas := Consolidation.Consolidation(project, episodes, embeddedIds, labels, minSize, reply, decode, freshId, now);
            var r := ConsolidateReplyOf(total, minSize, metas);
            (r.NoClusters? <==> metas == []) &&
            (r.Consolidated? ==> r.generated == |metas| && r.episodesConsolidated >= minSize * r.generated &&
                                 forall m :: m in r.metaMemories ==> Sound(m, project, minSize, episodes))
  {
    var metas := Consolidation.Consolidation(project, episodes, embeddedIds, labels, minSize, reply, decode, freshId, now);
    ConsolidationSound(project, episodes, embeddedIds, labels, minSize, reply, decode, freshId, now);
    EpisodeCountSumAtLeast(metas, minSize);
  }

  /** `_consolidate_memories`: a project name is required, and a project with fewer episodes
      than the minimum cluster size (3 unless given) is reported without consolidating. */
  method ConsolidateMemories(
    store: MetaMemoryStore, project: Option<string>, minClusterSize: Option<int>, total: nat,
    episodes: seq<Episode>, embeddedIds: seq<string>, labels: seq<int>,
    reply: nat -> Option<string>, decode: string -> Option<SynthesisData>, freshId: nat -> string, now: int)
    returns (r: ConsolidateReply)
    requires |labels| == |embeddedIds|
    modifies store
    ensures !Given(project) ==> r == MissingProject && store.stored == old(store.stored)
    ensures var minSize := minClusterSize.GetOr(DefaultMinClusterSize);
            Given(project) && total < minSize ==> r == TooFewEpisodes(total, minSize) && store.stored == old(store.stored)
    ensures var minSize := minClusterSize.GetOr(DefaultMinClusterSize);
            Given(project) && total >= minSize ==>
              var metas := Consolidation.Consolidation(project.value, episodes, embeddedIds, labels, minSize, reply, decode, freshId, now);
              r == ConsolidateReplyOf(total, minSize, metas) && store.stored == old(store.stored) + metas
  {
    if !Given(project) {
      return MissingProject;
    }
    var minSize := minClusterSize.GetOr(DefaultMinClusterSize);
    if total < minSize {
      return TooFewEpisodes(total, minSize);
    }
    var metas := ConsolidateProject(store, project.value, false, episodes, embeddedIds, labels, minSize,
                                    reply, decode, freshId, now);
    if |metas| == 0 {
      return NoClusters(total, minSize);
    }
    return Consolidated(|metas|, EpisodeCountSum(metas), metas);
  }

  // ---------------------------------------------------------------------
  // Marking an episode

  /** A flag value: the two booleans or the two texts. */
  datatype Flag = BoolFlag(b: bool) | TextFlag(s: string)

  datatype MarkArgs = MarkArgs(
    episodeId: Option<string>,
    isAntipattern: Option<bool>,
    isCritical: Option<bool>,
    supersededBy: Option<string>,
    deprecationReason: Option<string>)

  const FlagKeys: set<string> := {"is_antipattern", "is_critical", "superseded_by", "deprecation_reason"}

  /** The update map: one entry for each flag argument that is not `None`. */
  function UpdatesOf(a: MarkArgs): (u: map<string, Flag>)
    ensures u.Keys <= FlagKeys
    ensures "is_antipattern" in u <==> a.isAntipattern.Some?
    ensures "is_critical" in u <==> a.isCritical.Some?
    ensures "superseded_by" in u <==> a.supersededBy.Some?
    ensures "deprecation_reason" in u <==> a.deprecationReason.Some?
    ensures a.isAntipattern.Some? ==> u["is_antipattern"] == BoolFlag(a.isAntipattern.value)
    ensures a.isCritical.Some? ==> u["is_critical"] == BoolFlag(a.isCritical.value)
    ensures a.supersededBy.Some? ==> u["superseded_by"] == TextFlag(a.supersededBy.value)
    ensures a.deprecationReason.Some? ==> u["deprecation_reason"] == TextFlag(a.deprecationReason.value)
    ensures u == map[] <==> a.isAntipattern.None? && a.isCritical.None? && a.supersededBy.None? && a.deprecationReason.None?
  {
    var u0: map<string, Flag> := map[];
    var u1 := if a.isAntipattern.Some? then u0["is_antipattern" := BoolFlag(a.isAntipattern.value)] else u0;
    var u2 := if a.isCritical.Some? then u1["is_critical" := BoolFlag(a.isCritical.value)] else u1;
    var u3 := if a.supersededBy.Some? then u2["superseded_by" := TextFlag(a.supersededBy.value)] else u2;
    if a.deprecationReason.Some? then u3["deprecation_reason" := TextFlag(a.deprecationReason.value)] else u3
  }

  /** Fills the update map field by field. */
  method BuildUpdates(a: MarkArgs) returns (updates: map<string, Flag>)
    ensures updates == UpdatesOf(a)
  {
    updates := map[];
    if a.isAntipattern.Some? {
      updates := updates["is_antipattern" := BoolFlag(a.isAntipattern.value)];
    }
    if a.isCritical.Some? {
      updates := updates["is_critical" := BoolFlag(a.isCritical.value)];
    }
    if a.supersededBy.Some? {
      updates := updates["superseded_by" := TextFlag(a.supersededBy.value)];
    }
    if a.deprecationReason.Some? {
      updates := updates["deprecation_reason" := TextFlag(a.deprecationReason.value)];
    }
  }

  const AntipatternMessage: string :=
    "Episode marked as ANTIPATTERN. It will be shown as a warning in future relevant queries."
  const CriticalMessage: string := "Episode marked as CRITICAL. It will be prioritized in searches."

  /** `updates.get(key)` is truthy. */
  predicate SetTrue(updates: map<string, Flag>, key: string) {
    key in updates && updates[key] == BoolFlag(true)
  }

  function MarkMessage(updates: map<string, Flag>): string {
    (if SetTrue(updates, "is_antipattern") then AntipatternMessage else "") +
    (if SetTrue(updates, "is_critical") then CriticalMessage else "")
  }

  /** The message names the antipattern mark when it was set to true, then the critical
      mark when that was; it is empty when neither was. */
  lemma MarkMessageOf(a: MarkArgs)
    ensures var m := MarkMessage(UpdatesOf(a));
            (a.isAntipattern == Some(true) ==> StartsWith(m, AntipatternMessage)) &&
            (a.isCritical == Some(true) ==> EndsWith(m, CriticalMessage)) &&
            (m == "" <==> a.isAntipattern != Some(true) && a.isCritical != Some(true))
  {
    var m := MarkMessage(UpdatesOf(a));
    if a.isCritical == Some(true) {
      var pre := if a.isAntipattern == Some(true) then AntipatternMessage else "";
      assert m == pre + CriticalMessage;
      assert m[|m| - |CriticalMessage|..] == CriticalMessage;
    }
  }

  datatype MarkFailure = MissingId | NotFound(id: string) | NoChanges | UpdateFailed(id: string)

  datatype MarkReply =
    | MarkError(failure: MarkFailure)
    | Marked(episodeId: string, task: string, updatesApplied: map<string, Flag>, message: string)

  /** The flag updates handed to the store, in order. */
  class FlagLog {
    var applied: seq<(string, map<string, Flag>)>

    constructor ()
      ensures applied == []
    {
      applied := [];
    }

    /** `update_episode_flags`; whether the store accepts the update is its own answer. */
    method UpdateEpisodeFlags(id: string, updates: map<string, Flag>, accepted: bool) returns (ok: bool)
      modifies this
      ensures applied == old(applied) + [(id, updates)]
      ensures ok == accepted
    {
      applied := applied + [(id, updates)];
      ok := accepted;
    }
  }

  /** `_mark_episode`: a missing id, an unknown episode or an empty update map is an error
      reported before any update; otherwise the update is handed to the store once. */
  method MarkEpisode(log: FlagLog, a: MarkArgs, lookup: string -> Option<Episode>, accepted: bool)
    returns (r: MarkReply)
    modifies log
    ensures !Given(a.episodeId) ==> r == MarkError(MissingId) && log.applied == old(log.applied)
    ensures Given(a.episodeId) && lookup(a.episodeId.value).None? ==>
              r == MarkError(NotFound(a.episodeId.value)) && log.applied == old(log.applied)
    ensures Given(a.episodeId) && lookup(a.episodeId.value).Some? && UpdatesOf(a) == map[] ==>
              r == MarkError(NoChanges) && log.applied == old(log.applied)
    ensures Given(a.episodeId) && lookup(a.episodeId.value).Some? && UpdatesOf(a) != map[] ==>
              var id := a.episodeId.value;
              log.applied == old(log.applied) + [(id, UpdatesOf(a))] &&
              (accepted ==> r == Marked(id, lookup(id).value.task, UpdatesOf(a), MarkMessage(UpdatesOf(a)))) &&
              (!accepted ==> r == MarkError(UpdateFailed(id)))
  {
    if !Given(a.episodeId) {
      return MarkError(MissingId);
    }
    var id := a.episodeId.value;
    var episode := lookup(id);
    if episode.None? {
      return MarkError(NotFound(id));
    }
    var updates := BuildUpdates(a);
    if updates == map[] {
      return MarkError(NoChanges);
    }
    var ok := log.UpdateEpisodeFlags(id, updates, accepted);
    if !ok {
      return MarkError(UpdateFailed(id));
    }
    var message := "";
    if SetTrue(updates, "is_antipattern") {
      message := AntipatternMessage;
    }
    if SetTrue(updates, "is_critical") {
      message := message + CriticalMessage;
    }
    return Marked(id, episode.value.task, updates, message);
  }
}
