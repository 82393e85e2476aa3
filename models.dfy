/** The records of the memory store: episodes, their reasoning traces,
    queries, search results and consolidated meta-memories, with the field
    bounds and defaults the schema enforces. A schema violation is reported
    as the list of offending field names, the way a validation error lists
    every failing field. */
module Models {
  import opened Wrappers

  /** The kinds of captured episode. */
  datatype EpisodeType = Decision | BugFix | Refactor | Feature | Optimization | Learning | Experiment

  /** The wire value of each kind. */
  function TypeValue(t: EpisodeType): string {
    match t
    case Decision => "decision"
    case BugFix => "bug_fix"
    case Refactor => "refactor"
    case Feature => "feature"
    case Optimization => "optimization"
    case Learning => "learning"
    case Experiment => "experiment"
  }

  /** Every kind, in declaration order. */
  const AllTypes: seq<EpisodeType> := [Decision, BugFix, Refactor, Feature, Optimization, Learning, Experiment]

  /** There are exactly seven kinds, each listed once, with pairwise different wire values. */
  lemma AllTypesComplete()
    ensures |AllTypes| == 7
    ensures forall t: EpisodeType :: t in AllTypes
    ensures forall i, j :: 0 <= i < j < |AllTypes| ==> TypeValue(AllTypes[i]) != TypeValue(AllTypes[j])
  {
    forall t: EpisodeType ensures t in AllTypes {
      match t
      case Decision => assert t == AllTypes[0];
      case BugFix => assert t == AllTypes[1];
      case Refactor => assert t == AllTypes[2];
      case Feature => assert t == AllTypes[3];
      case Optimization => assert t == AllTypes[4];
      case Learning => assert t == AllTypes[5];
      case Experiment => assert t == AllTypes[6];
    }
  }

  /** `EpisodeType(s)`: the kind whose wire value is `s`, if any. */
  function ParseType(s: string): (r: Option<EpisodeType>)
    ensures r.Some? ==> TypeValue(r.value) == s
    ensures r.None? ==> forall t :: TypeValue(t) != s
  {
    if s == "decision" then Some(Decision)
    else if s == "bug_fix" then Some(BugFix)
    else if s == "refactor" then Some(Refactor)
    else if s == "feature" then Some(Feature)
    else if s == "optimization" then Some(Optimization)
    else if s == "learning" then Some(Learning)
    else if s == "experiment" then Some(Experiment)
    else None
  }

  /** Parsing a kind's wire value gives the kind back. */
  lemma ParseTypeValue(t: EpisodeType)
    ensures ParseType(TypeValue(t)) == Some(t)
  {
  }

  predicate InUnit(x: real) {
    0.0 <= x <= 1.0
  }

  /** The name of a field when its constraint fails, nothing otherwise. */
  function FieldCheck(name: string, ok: bool): seq<string> {
    if ok then [] else [name]
  }

  datatype ReasoningTrace = ReasoningTrace(
    rawThinking: string,
    alternatives: seq<string>,
    decisionFactors: seq<string>,
    confidenceLevel: Option<real>)
  {
    predicate Valid() {
      confidenceLevel.Some? ==> InUnit(confidenceLevel.value)
    }
  }

  /** Builds a reasoning trace; an out-of-range confidence level is rejected. */
  function NewReasoningTrace(raw: string, alternatives: seq<string>, factors: seq<string>, confidence: Option<real>)
    : (r: Result<ReasoningTrace, seq<string>>)
    ensures r.Success? <==> confidence.None? || InUnit(confidence.value)
    ensures r.Success? ==> r.value.Valid() && r.value == ReasoningTrace(raw, alternatives, factors, confidence)
    ensures r.Failure? ==> r.error == ["confidence_level"]
  {
    var rt := ReasoningTrace(raw, alternatives, factors, confidence);
    var errs := FieldCheck("confidence_level", rt.Valid());
    if errs == [] then Success(rt) else Failure(errs)
  }

  /** A memory episode. Identifiers are opaque strings and timestamps opaque integers. */
  datatype Episode = Episode(
    id: string,
    timestamp: int,
    task: string,
    context: string,
    trace: ReasoningTrace,
    solution: string,
    solutionSummary: string,
    outcome: Option<string>,
    success: bool,
    episodeType: EpisodeType,
    tags: seq<string>,
    filesAffected: seq<string>,
    lessons: seq<string>,
    sourceAssistant: string,
    projectName: string,
    importance: real,
    accessCount: int,
    lastAccessed: Option<int>,
    isAntipattern: bool,
    isCritical: bool,
    supersededBy: Option<string>,
    deprecationReason: Option<string>)
  {
    predicate Valid() {
      trace.Valid() && InUnit(importance) && accessCount >= 0
    }

    /** The forgetting-curve fields and flags hold their default values. */
    predicate HasDefaultUsage() {
      importance == 1.0 && accessCount == 0 && lastAccessed.None? &&
      !isAntipattern && !isCritical && supersededBy.None? && deprecationReason.None?
    }
  }

  /** The fields of an episode that fail the schema, in declaration order. */
  function EpisodeErrors(e: Episode): (errs: seq<string>)
    ensures errs == [] <==> e.Valid()
    ensures "reasoning_trace.confidence_level" in errs <==> !e.trace.Valid()
    ensures "importance_score" in errs <==> !InUnit(e.importance)
    ensures "access_count" in errs <==> e.accessCount < 0
  {
    FieldCheck("reasoning_trace.confidence_level", e.trace.Valid()) +
    FieldCheck("importance_score", InUnit(e.importance)) +
    FieldCheck("access_count", e.accessCount >= 0)
  }

  /** An episode built from its content fields, everything else left at its default. */
  function NewEpisode(
    id: string, timestamp: int, task: string, context: string, trace: ReasoningTrace,
    solution: string, summary: string, episodeType: EpisodeType, tags: seq<string>,
    files: seq<string>, lessons: seq<string>, assistant: string, project: string): (e: Episode)
    ensures e.HasDefaultUsage() && e.outcome.None? && e.success
    ensures e.Valid() <==> trace.Valid()
    ensures e.id == id && e.timestamp == timestamp && e.task == task && e.context == context
    ensures e.trace == trace && e.solution == solution && e.solutionSummary == summary
    ensures e.episodeType == episodeType && e.tags == tags && e.filesAffected == files
    ensures e.lessons == lessons && e.sourceAssistant == assistant && e.projectName == project
  {
    Episode(id, timestamp, task, context, trace, solution, summary, None, true, episodeType,
            tags, files, lessons, assistant, project, 1.0, 0, None, false, false, None, None)
  }

  /** An episode built from its required fields only: a decision with no tags, files or
      lessons, from an unknown assistant, in the "default" project. */
  function RequiredOnlyEpisode(
    id: string, timestamp: int, task: string, context: string, trace: ReasoningTrace,
    solution: string, summary: string): (e: Episode)
    ensures e.episodeType == Decision && e.tags == [] && e.filesAffected == [] && e.lessons == []
    ensures e.sourceAssistant == "unknown" && e.projectName == "default"
    ensures e.HasDefaultUsage() && e.outcome.None? && e.success
    ensures e.Valid() <==> trace.Valid()
    ensures e.id == id && e.timestamp == timestamp && e.task == task && e.context == context
    ensures e.trace == trace && e.solution == solution && e.solutionSummary == summary
  {
    NewEpisode(id, timestamp, task, context, trace, solution, summary, Decision, [], [], [], "unknown", "default")
  }

  const DefaultTopK: int := 5
  const MinTopK: int := 1
  const MaxTopK: int := 20

  datatype MemoryQuery = MemoryQuery(
    query: string,
    projectFilter: Option<string>,
    typeFilter: Option<EpisodeType>,
    dateFrom: Option<int>,
    dateTo: Option<int>,
    tagsFilter: seq<string>,
    topK: int)

  /** Builds a query with no type, date or tag filter; `top_k` outside [1, 20] is rejected. */
  function NewMemoryQuery(query: string, projectFilter: Option<string>, topK: int): (r: Result<MemoryQuery, seq<string>>)
    ensures r.Success? <==> MinTopK <= topK <= MaxTopK
    ensures r.Success? ==> r.value.topK == topK && r.value.query == query && r.value.projectFilter == projectFilter
    ensures r.Success? ==> r.value.typeFilter.None? && r.value.tagsFilter == []
    ensures r.Success? ==> r.value.dateFrom.None? && r.value.dateTo.None?
  {
    var errs := FieldCheck("top_k", MinTopK <= topK <= MaxTopK);
    if errs == [] then Success(MemoryQuery(query, projectFilter, None, None, None, [], topK)) else Failure(errs)
  }

  /** The query built when no `top_k` is given asks for five results. */
  lemma DefaultQueryValid(query: string)
    ensures NewMemoryQuery(query, None, DefaultTopK).Success?
    ensures NewMemoryQuery(query, None, DefaultTopK).value.topK == 5
  {
  }

  datatype MemorySearchResult = MemorySearchResult(episode: Episode, relevance: real, matchReason: string)

  /** Wraps a hit; a relevance outside [0, 1] is rejected. */
  function NewSearchResult(episode: Episode, relevance: real): (r: Result<MemorySearchResult, seq<string>>)
    ensures r.Success? <==> InUnit(relevance)
    ensures r.Success? ==> r.value == MemorySearchResult(episode, relevance, "")
    ensures r.Failure? ==> r.error == ["relevance_score"]
  {
    var errs := FieldCheck("relevance_score", InUnit(relevance));
    if errs == [] then Success(MemorySearchResult(episode, relevance, "")) else Failure(errs)
  }

  /** The capture handed to the structuring step. */
  datatype ProcessedInput = ProcessedInput(
    rawText: string,
    userPrompt: Option<string>,
    codeChanges: Option<string>,
    source: string,
    capturedAt: int)

  /** Consolidated knowledge distilled from a cluster of episodes. */
  datatype MetaMemory = MetaMemory(
    id: string,
    createdAt: int,
    updatedAt: int,
    pattern: string,
    patternSummary: string,
    lessons: seq<string>,
    bestPractices: seq<string>,
    antipatterns: seq<string>,
    exceptions: seq<string>,
    edgeCases: seq<string>,
    contexts: seq<string>,
    technologies: seq<string>,
    sourceEpisodeIds: seq<string>,
    episodeCount: int,
    confidence: real,
    coherence: real,
    projectName: string,
    tags: seq<string>,
    accessCount: int,
    lastAccessed: Option<int>)
  {
    predicate Valid() {
      episodeCount >= 0 && InUnit(confidence) && InUnit(coherence) && accessCount >= 0
    }
  }

  /** The fields of a meta-memory that fail the schema, in declaration order. */
  function MetaMemoryErrors(m: MetaMemory): (errs: seq<string>)
    ensures errs == [] <==> m.Valid()
    ensures "episode_count" in errs <==> m.episodeCount < 0
    ensures "confidence" in errs <==> !InUnit(m.confidence)
    ensures "coherence_score" in errs <==> !InUnit(m.coherence)
    ensures "access_count" in errs <==> m.accessCount < 0
  {
    FieldCheck("episode_count", m.episodeCount >= 0) +
    FieldCheck("confidence", InUnit(m.confidence)) +
    FieldCheck("coherence_score", InUnit(m.coherence)) +
    FieldCheck("access_count", m.accessCount >= 0)
  }

  /** Validates a meta-memory: accepted unchanged exactly when every bound holds. */
  function ValidateMetaMemory(m: MetaMemory): (r: Result<MetaMemory, seq<string>>)
    ensures r.Success? <==> m.Valid()
    ensures r.Success? ==> r.value == m
    ensures r.Failure? ==> |r.error| > 0
  {
    var errs := MetaMemoryErrors(m);
    if errs == [] then Success(m) else Failure(errs)
  }

  /** A meta-memory given only its pattern: every other field at its default. */
  function NewMetaMemory(id: string, now: int, pattern: string, summary: string): (m: MetaMemory)
    ensures m.Valid()
    ensures m.confidence == 0.5 && m.coherence == 0.5
    ensures m.episodeCount == 0 && m.accessCount == 0 && m.sourceEpisodeIds == []
    ensures m.projectName == "default" && m.lastAccessed.None?
    ensures m.pattern == pattern && m.patternSummary == summary
  {
    MetaMemory(id, now, now, pattern, summary, [], [], [], [], [], [], [], [], 0, 0.5, 0.5, "default", [], 0, None)
  }

  datatype MetaMemorySearchResult = MetaMemorySearchResult(metaMemory: MetaMemory, relevance: real, matchReason: string)

  /** Wraps a meta-memory hit; a relevance outside [0, 1] is rejected. */
  function NewMetaSearchResult(m: MetaMemory, relevance: real): (r: Result<MetaMemorySearchResult, seq<string>>)
    ensures r.Success? <==> InUnit(relevance)
    ensures r.Success? ==> r.value == MetaMemorySearchResult(m, relevance, "")
    ensures r.Failure? ==> r.error == ["relevance_score"]
  {
    var errs := FieldCheck("relevance_score", InUnit(relevance));
    if errs == [] then Success(MetaMemorySearchResult(m, relevance, "")) else Failure(errs)
  }
}
