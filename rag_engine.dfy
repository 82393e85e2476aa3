/** The question-answering engine: it fetches consolidated meta-memories and
    individual episodes for a question, assembles them into one context with
    the meta-memories first, and asks the language model for an answer. The
    searches and the model are outside the model and arrive as functions;
    the rendering of a single result (its percentages and dates) is a
    function too. */
module RagEngine {
  import opened Wrappers
  import opened Text
  import opened Models

  /** The meta-memory search never asks for more than three results. */
  const MaxMetaResults: int := 3

  const NoContextAnswer: string :=
    "No encontré episodios de memoria ni conocimiento consolidado relacionados con tu pregunta. " +
    "Es posible que este tema no haya sido documentado aún."

  const MetaHeader: string := "## META-MEMORIAS (Conocimiento Consolidado)\n"
  const MetaNote: string := "*Estas son lecciones consolidadas de múltiples episodios relacionados.*\n"
  const EpisodesHeader: string := "\n## EPISODIOS INDIVIDUALES\n"
  const EpisodesNote: string := "*Detalles específicos de decisiones particulares.*\n"
  const RelevantHeader: string := "## EPISODIOS DE MEMORIA RELEVANTES\n"

  function Min(a: int, b: int): int {
    if a <= b then a else b
  }

  // ---------------------------------------------------------------------
  // Context assembly

  /** The numbered blocks of the results, numbering from 1. */
  function Blocks<R>(results: seq<R>, block: (nat, R) -> string): (r: seq<string>)
    ensures |r| == |results|
    ensures forall i :: 0 <= i < |results| ==> r[i] == block(i + 1, results[i])
  {
    seq(|results|, i requires 0 <= i < |results| => block(i + 1, results[i]))
  }

  lemma BlocksSnoc<R>(results: seq<R>, block: (nat, R) -> string, i: int)
    requires 0 <= i < |results|
    ensures Blocks(results[..i + 1], block) == Blocks(results[..i], block) + [block(i + 1, results[i])]
  {
  }

  /** The parts of the meta-memory section: none without meta-memories. */
  function MetaSection(metas: seq<MetaMemorySearchResult>, block: (nat, MetaMemorySearchResult) -> string): seq<string> {
    if |metas| == 0 then [] else [MetaHeader, MetaNote] + Blocks(metas, block)
  }

  /** `_build_context`: the relevant-episodes header and one block per result. */
  function EpisodeContext(results: seq<MemorySearchResult>, block: (nat, MemorySearchResult) -> string): string {
    Join("\n", [RelevantHeader] + Blocks(results, block))
  }

  /** The parts of the episode section: none without episodes. */
  function EpisodeSection(results: seq<MemorySearchResult>, block: (nat, MemorySearchResult) -> string): seq<string> {
    if |results| == 0 then [] else [EpisodesHeader, EpisodesNote, EpisodeContext(results, block)]
  }

  /** The combined context: the meta-memory section, then the episode section. */
  function CombinedContext(
    metas: seq<MetaMemorySearchResult>, results: seq<MemorySearchResult>,
    metaBlock: (nat, MetaMemorySearchResult) -> string, block: (nat, MemorySearchResult) -> string): string
  {
    Join("\n", MetaSection(metas, metaBlock) + EpisodeSection(results, block))
  }

  /** Meta-memories come first: with both kinds present the context is the meta-memory
      section, a line break, then the episode section; a section is absent when its list is
      empty, and the context opens with the header of the first section present. */
  lemma CombinedContextOrder(
    metas: seq<MetaMemorySearchResult>, results: seq<MemorySearchResult>,
    metaBlock: (nat, MetaMemorySearchResult) -> string, block: (nat, MemorySearchResult) -> string)
    ensures var c := CombinedContext(metas, results, metaBlock, block);
            (|metas| > 0 && |results| > 0 ==>
               c == Join("\n", MetaSection(metas, metaBlock)) + "\n" + Join("\n", EpisodeSection(results, block))) &&
            (|metas| == 0 ==> c == Join("\n", EpisodeSection(results, block))) &&
            (|results| == 0 ==> c == Join("\n", MetaSection(metas, metaBlock))) &&
            (|metas| > 0 ==> StartsWith(c, MetaHeader)) &&
            (|metas| == 0 && |results| > 0 ==> StartsWith(c, EpisodesHeader))
  {
    var ms := MetaSection(metas, metaBlock);
    var es := EpisodeSection(results, block);
    if |metas| > 0 && |results| > 0 {
      JoinConcat("\n", ms, es);
    }
    if |metas| == 0 {
      assert ms + es == es;
    }
    if |results| == 0 {
      assert ms + es == ms;
    }
    if |metas| > 0 {
      JoinStartsWith("\n", ms + es);
    } else if |results| > 0 {
      JoinStartsWith("\n", es);
    }
  }

  /** `_build_context`, appending one block per result. */
  method BuildContext(results: seq<MemorySearchResult>, block: (nat, MemorySearchResult) -> string) returns (context: string)
    ensures context == EpisodeContext(results, block)
  {
    var parts := [RelevantHeader];
    for i := 0 to |results|
      invariant parts == [RelevantHeader] + Blocks(results[..i], block)
    {
      BlocksSnoc(results, block, i);
      parts := parts + [block(i + 1, results[i])];
    }
    assert results[..|results|] == results;
    context := Join("\n", parts);
  }

  /** `_build_combined_context`, appending the meta-memory section, then the episode section. */
  method BuildCombinedContext(
    metas: seq<MetaMemorySearchResult>, results: seq<MemorySearchResult>,
    metaBlock: (nat, MetaMemorySearchResult) -> string, block: (nat, MemorySearchResult) -> string)
    returns (context: string)
    ensures context == CombinedContext(metas, results, metaBlock, block)
  {
    var parts: seq<string> := [];
    if |metas| > 0 {
      parts := parts + [MetaHeader, MetaNote];
      for i := 0 to |metas|
        invariant parts == [MetaHeader, MetaNote] + Blocks(metas[..i], metaBlock)
      {
        BlocksSnoc(metas, metaBlock, i);
        parts := parts + [metaBlock(i + 1, metas[i])];
      }
      assert metas[..|metas|] == metas;
    }
    assert parts == MetaSection(metas, metaBlock);
    if |results| > 0 {
      var episodes := BuildContext(results, block);
      parts := parts + [EpisodesHeader, EpisodesNote, episodes];
    }
    assert parts == MetaSection(metas, metaBlock) + EpisodeSection(results, block);
    context := Join("\n", parts);
  }

  // ---------------------------------------------------------------------
  // Query

  datatype QueryAnswer = QueryAnswer(
    answer: string,
    episodesUsed: seq<Episode>,
    metaMemoriesUsed: seq<MetaMemory>,
    relevanceScores: seq<real>,
    metaRelevanceScores: Option<seq<real>>,
    contextProvided: bool)

  /** What a query returns, with the calls it made to its collaborators: the `top_k` of the
      meta-memory search if it ran, and the context the model was asked about if it was. */
  datatype QueryOutcome = QueryOutcome(
    result: Result<QueryAnswer, seq<string>>,
    metaSearchTopK: Option<int>,
    modelContext: Option<string>)

  function EpisodesOf(results: seq<MemorySearchResult>): (r: seq<Episode>)
    ensures |r| == |results| && forall i :: 0 <= i < |results| ==> r[i] == results[i].episode
  {
    seq(|results|, i requires 0 <= i < |results| => results[i].episode)
  }

  function ScoresOf(results: seq<MemorySearchResult>): (r: seq<real>)
    ensures |r| == |results| && forall i :: 0 <= i < |results| ==> r[i] == results[i].relevance
  {
    seq(|results|, i requires 0 <= i < |results| => results[i].relevance)
  }

  function MetasOf(results: seq<MetaMemorySearchResult>): (r: seq<MetaMemory>)
    ensures |r| == |results| && forall i :: 0 <= i < |results| ==> r[i] == results[i].metaMemory
  {
    seq(|results|, i requires 0 <= i < |results| => results[i].metaMemory)
  }

  /** `query`: meta-memories are searched first when asked for, then the episodes through a
      validated query; with nothing found the fixed answer comes back without asking the
      model, otherwise the model answers over the combined context.

      The meta-memory search asks for `min(3, top_k)` results.
      The model is asked exactly when something was found; otherwise every list is empty
      and the reply carries no meta-memory scores at all.
      When it is asked, the episodes and meta-memories used are those found, and each score
      list is aligned with its results. */
  function Query(
    question: string, project: Option<string>, topK: int, includeMeta: bool,
    metaSearch: int -> seq<MetaMemorySearchResult>, search: MemoryQuery -> seq<MemorySearchResult>,
    answer: string -> string,
    metaBlock: (nat, MetaMemorySearchResult) -> string, block: (nat, MemorySearchResult) -> string)
    : (o: QueryOutcome)
    ensures o.metaSearchTopK == (if includeMeta then Some(Min(MaxMetaResults, topK)) else None)
    ensures o.result.Failure? <==> !(MinTopK <= topK <= MaxTopK)
    ensures o.result.Success? ==>
              var q := NewMemoryQuery(question, project, topK).value;
              var metas := if includeMeta then metaSearch(o.metaSearchTopK.value) else [];
              var a := o.result.value;
              q.topK == topK && q.query == question && q.projectFilter == project &&
              (o.modelContext.None? <==> |search(q)| == 0 && |metas| == 0) &&
              (!a.contextProvided <==> o.modelContext.None?) &&
              (!a.contextProvided ==>
                 a.answer == NoContextAnswer && a.episodesUsed == [] && a.metaMemoriesUsed == [] &&
                 a.relevanceScores == [] && a.metaRelevanceScores.None?) &&
              (a.contextProvided ==>
                 a.answer == answer(o.modelContext.value) &&
                 o.modelContext.value == CombinedContext(metas, search(q), metaBlock, block) &&
                 |a.episodesUsed| == |a.relevanceScores| == |search(q)| &&
                 a.metaRelevanceScores.Some? &&
                 |a.metaMemoriesUsed| == |a.metaRelevanceScores.value| == |metas| &&
                 (forall i :: 0 <= i < |search(q)| ==>
                    a.episodesUsed[i] == search(q)[i].episode && a.relevanceScores[i] == search(q)[i].relevance) &&
                 (forall i :: 0 <= i < |metas| ==>
                    a.metaMemoriesUsed[i] == metas[i].metaMemory && a.metaRelevanceScores.value[i] == metas[i].relevance))
  {
    var metaTopK := if includeMeta then Some(Min(MaxMetaResults, topK)) else None;
    var metas := if includeMeta then metaSearch(Min(MaxMetaResults, topK)) else [];
    match NewMemoryQuery(question, project, topK)
    case Failure(errs) => QueryOutcome(Failure(errs), metaTopK, None)
    case Success(q) =>
      var results := search(q);
      if |results| == 0 && |metas| == 0 then
        QueryOutcome(Success(QueryAnswer(NoContextAnswer, [], [], [], None, false)), metaTopK, None)
      else
        var context := CombinedContext(metas, results, metaBlock, block);
        QueryOutcome(Success(QueryAnswer(answer(context), EpisodesOf(results), MetasOf(metas),
                                         ScoresOf(results),
                                         Some(seq(|metas|, i requires 0 <= i < |metas| => metas[i].relevance)), true)),
                     metaTopK, Some(context))
  }

  // ---------------------------------------------------------------------
  // Timeline

  /** The renderings of a timestamp the timeline shows: ISO date-time, day and time of day. */
  datatype Clock = Clock(iso: int -> string, day: int -> string, timeOfDay: int -> string)

  datatype TimelineEntry = TimelineEntry(
    id: string,
    timestamp: string,
    date: string,
    time: string,
    task: string,
    episodeType: string,
    summary: string,
    tags: seq<string>,
    assistant: string,
    success: bool)

  function EntryOf(e: Episode, clock: Clock): TimelineEntry {
    TimelineEntry(e.id, clock.iso(e.timestamp), clock.day(e.timestamp), clock.timeOfDay(e.timestamp),
                  e.task, TypeValue(e.episodeType), e.solutionSummary, e.tags, e.sourceAssistant, e.success)
  }

  /** `get_timeline`: one entry per stored episode, in the order the store gave them. */
  method GetTimeline(episodes: seq<Episode>, clock: Clock) returns (timeline: seq<TimelineEntry>)
    ensures |timeline| == |episodes|
    ensures forall i :: 0 <= i < |episodes| ==> timeline[i] == EntryOf(episodes[i], clock)
  {
    timeline := [];
    for i := 0 to |episodes|
      invariant |timeline| == i
      invariant forall j :: 0 <= j < i ==> timeline[j] == EntryOf(episodes[j], clock)
    {
      timeline := timeline + [EntryOf(episodes[i], clock)];
    }
  }
}
