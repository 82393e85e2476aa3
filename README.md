# memorytwin: a verified model of the episodic memory core

memorytwin stores *episodes*: records of the technical reasoning behind a
decision, a bug fix or a refactor. Three parts handle them:

- the Escriba turns raw reasoning into structured episodes through a language model and stores them;
- the Oráculo answers questions from the stored episodes;
- an MCP server exposes both to coding assistants as tools.

Related episodes are periodically *consolidated* into meta-memories: patterns, lessons
and best practices distilled by the language model from a cluster of similar episodes.

This project models the deterministic core of that system in Dafny and proves what
it promises:

- the hybrid ranking score and the consolidation trigger (`Scoring`);
- the consolidation pipeline's bookkeeping around clustering and synthesis (`Consolidation`);
- the field bounds and defaults of the data model (`Models`);
- the tool logic of the MCP server (`McpServer`):
  - capture text and fallback episodes;
  - the project-context mode switch and its antipattern warnings;
  - flag marking;
  - the consolidation guards;
- the question-answering branches and context assembly (`RagEngine`);
- prompt assembly, JSON extraction and tolerant episode construction (`Processor`);
- the parsing and text generation of the project analyzer (`ProjectAnalyzer`);
- result shaping in the local store (`Storage`) and in the client-server store (`StorageServer`);
- the language-model client plumbing: message conversion, the single retry without JSON mode, and the client cache (`Config`).

Shared helpers live in `Wrappers` (Option, Result), `Text` (strip over Python's whitespace set, ASCII lower-casing,
prefix and substring tests, join and split) and `Seqs` (counting, first-seen
de-duplication, subsequences, truncation).

Every foreign collaborator becomes a parameter:

- the language model is a function from prompt to reply, or to a reply that may be absent;
- the vector index becomes the ids and distances it returns;
- the SQL store becomes a sequence of records;
- DBSCAN becomes its label sequence;
- `json.loads` becomes a decoder that may fail;
- the file system becomes an existence predicate and a reader;
- the clock, the uuid generator and `isoformat` become explicit values or functions.

Python floats are modelled as exact `real`s.

Where the code and its written design disagree, the model follows the code:

- An episode that is both critical and an antipattern is scored with **both** modifiers (1.5 × 0.3 = 0.45 of the unflagged score). The design text says the critical modifier alone applies.
- The design text describes a relevance cut-off of 0.4 before ranking. No code shown applies one, so the model has none.

## Model

| member | source | states |
|---|---|---|
| Models.AllTypesComplete | src/memorytwin/models.py:22-31 | the episode type has exactly seven values, each with a distinct string value |
| Models.ParseType | src/memorytwin/models.py:22-31 | parsing a string gives the type with that value, and fails exactly when no type has it |
| Models.ParseTypeValue | src/memorytwin/models.py:22-31 | parsing the value of a type gives the type back |
| Models.NewReasoningTrace | src/memorytwin/models.py:34-57 | a trace is built iff the confidence level is absent or in [0,1]; otherwise the error names confidence_level |
| Models.EpisodeErrors | src/memorytwin/models.py:143-153 | an episode validates iff its trace is valid, its importance is in [0,1] and its access count is non-negative; each violated bound is named |
| Models.NewEpisode | src/memorytwin/models.py:60-175 | a new episode has importance 1.0, access count 0, no last access, both flags false, no successor or deprecation reason, and is valid iff its trace is |
| Models.RequiredOnlyEpisode | src/memorytwin/models.py:113-140 | an episode given only its required fields is a DECISION with no tags, files or lessons, from assistant "unknown" in project "default", with default usage |
| Models.NewMemoryQuery | src/memorytwin/models.py:178-210 | a query is accepted iff top_k is in [1,20]; it starts with no type, date or tag filters |
| Models.DefaultQueryValid | src/memorytwin/models.py:205-210 | the default top_k of 5 is accepted |
| Models.NewSearchResult | src/memorytwin/models.py:213-225 | an episode search result is accepted iff its relevance is in [0,1]; otherwise the error names relevance_score |
| Models.MetaMemoryErrors | src/memorytwin/models.py:319-354 | a meta-memory validates iff episode_count ≥ 0, confidence and coherence are in [0,1] and access_count ≥ 0; each violated bound is named |
| Models.ValidateMetaMemory | src/memorytwin/models.py:253-358 | validation returns the meta-memory unchanged when valid and a non-empty error list otherwise |
| Models.NewMetaMemory | src/memorytwin/models.py:253-358 | a new meta-memory is valid, with confidence and coherence 0.5, no episodes, no accesses and project "default" |
| Models.NewMetaSearchResult | src/memorytwin/models.py:361-373 | a meta-memory search result is accepted iff its relevance is in [0,1] |
| Scoring.ComputeBoost | src/memorytwin/scoring.py:69-86 | the boost is exactly 1 with no accesses, at least 1 for non-negative counts, and above 1 iff there was an access |
| Scoring.HybridScore | src/memorytwin/scoring.py:29-66 | a zero semantic score gives zero; positive semantic score and importance give a positive score, antipatterns included |
| Scoring.FlagsMultiply | src/memorytwin/scoring.py:54-64 | the score is the unflagged score times both modifiers: 1.5 for critical, 0.3 for antipattern, 0.45 for both |
| Scoring.MoreAccessesScoreHigher | src/memorytwin/scoring.py:54-64 | with positive semantic score, importance and boost factor, more accesses give a strictly higher score, and two scores stand in the ratio of their boosts |
| Scoring.ScoreIgnoresTimestamp | src/memorytwin/scoring.py:29-66 | the creation time plays no part in the score |
| Scoring.ShouldTriggerConsolidation | src/memorytwin/scoring.py:98-124 | consolidation is recommended iff the access count reaches 10 or the unconsolidated total reaches 20 |
| Scoring.TriggerMonotone | src/memorytwin/scoring.py:98-124 | once triggered, larger counts keep the trigger on |
| Scoring.HotEpisodes | src/memorytwin/scoring.py:127-144 | the result holds exactly the episodes at or above the threshold, with their multiplicities, as a subsequence of the input |
| Consolidation.NonNoise | src/memorytwin/consolidation.py:228-236 | the labels kept are exactly the input labels other than -1 |
| Consolidation.Members | src/memorytwin/consolidation.py:228-236 | a label's members are the ids carrying that label, as many as the label occurs |
| Consolidation.MemberOfOwnLabel | src/memorytwin/consolidation.py:228-236 | every id lands in the group of its own label |
| Consolidation.MemberLists | src/memorytwin/consolidation.py:228-236 | one member list per cluster label, in label order |
| Consolidation.CountNonNoise | src/memorytwin/consolidation.py:228-236 | dropping noise does not change the count of any real label |
| Consolidation.TotalSizeIsSumCounts | src/memorytwin/consolidation.py:228-236 | the group sizes add up to the label counts |
| Consolidation.ClustersPartition | src/memorytwin/consolidation.py:228-236 | the clusters partition the non-noise ids: no noise label, no repeated label, sizes summing to the non-noise count, every non-noise id in the cluster of its label |
| Consolidation.GroupByLabel | src/memorytwin/consolidation.py:228-236 | the dictionary loop produces exactly one group per non-noise label, holding that label's members, with labels in first-seen order |
| Consolidation.ClusterEpisodes | src/memorytwin/consolidation.py:203-236 | the clusters are the member lists of the labels in first-seen order |
| Consolidation.KeepCommon | src/memorytwin/consolidation.py:325-331 | a tag is kept iff it is a candidate counted at least half the episode count; no duplicates arise |
| Consolidation.CommonTags | src/memorytwin/consolidation.py:313-331 | no tags for no episodes; otherwise exactly the tags occurring in at least half the episodes, without duplicates |
| Consolidation.CountAllTagsAtLeast | src/memorytwin/consolidation.py:313-331 | a tag present on every episode is counted at least once per episode |
| Consolidation.SharedTagIsCommon | src/memorytwin/consolidation.py:313-331 | a tag shared by all of a non-empty set of episodes is a common tag |
| Consolidation.CountTags | src/memorytwin/consolidation.py:318-323 | the counting loop tallies every tag occurrence, keys in first-seen order |
| Consolidation.ExtractCommonTags | src/memorytwin/consolidation.py:313-331 | the method returns exactly the common tags |
| Consolidation.Confidence | src/memorytwin/consolidation.py:279 | confidence min(0.95, 0.5 + 0.1·n) lies in [0.5, 0.95] and reaches 0.95 exactly from five episodes on |
| Consolidation.ConfidenceMonotone | src/memorytwin/consolidation.py:279 | more episodes never lower the confidence |
| Consolidation.StripFences | src/memorytwin/consolidation.py:265-275 | the step-by-step fence stripping gives the unfenced reply |
| Consolidation.StrippedFenced | src/memorytwin/consolidation.py:265-275 | text that starts and ends with a backtick is already stripped |
| Consolidation.UnfenceJsonBlock | src/memorytwin/consolidation.py:265-275 | a ```json fenced block gives back its stripped body |
| Consolidation.UnfencePlainBlock | src/memorytwin/consolidation.py:265-275 | a ``` fenced block gives back its stripped body |
| Consolidation.UnfenceBare | src/memorytwin/consolidation.py:265-275 | text without fences is only stripped |
| Consolidation.EpisodeIds | src/memorytwin/consolidation.py:296-297 | the source ids are the cluster's episode ids in order |
| Consolidation.Synthesis | src/memorytwin/consolidation.py:238-311 | a meta-memory is produced iff there is a reply, it decodes after unfencing and its coherence is in [0,1]; it is valid, with episode_count equal to the cluster size and the number of source ids, the given project, the confidence formula and the common tags |
| Consolidation.SynthesizeCluster | src/memorytwin/consolidation.py:238-311 | the method returns exactly that synthesis outcome |
| Consolidation.EpisodesIn | src/memorytwin/consolidation.py:165-168 | the cluster's episodes are exactly the fetched episodes whose id is in the cluster, in fetch order |
| Consolidation.OutcomeSound | src/memorytwin/consolidation.py:165-178 | a cluster yields a meta-memory only when it is sound: valid, in the project, at least the minimum size, its sources fetched episodes |
| Consolidation.PlanSound | src/memorytwin/consolidation.py:158-180 | at most one meta-memory per cluster, each sound; failed clusters are skipped |
| Consolidation.ConsolidationSound | src/memorytwin/consolidation.py:131-180 | too few episodes or embeddings give no meta-memories; otherwise at most one per cluster label, each sound |
| Consolidation.ConsolidateCluster | src/memorytwin/consolidation.py:165-178 | one loop step stores exactly the meta-memory its cluster produces, if any |
| Consolidation.ConsolidateProject | src/memorytwin/consolidation.py:131-180 | the returned meta-memories are the consolidation result and are exactly what was appended to the store |
| Storage.Relevance | src/memorytwin/escriba/storage.py:243 | relevance max(0, 1 − d/2) is never negative, is 1 at distance 0, lies in [0,1] for non-negative distances and is 0 from distance 2 |
| Storage.RelevanceAntitone | src/memorytwin/escriba/storage.py:243 | a farther hit never has higher relevance |
| Storage.DistancesOrZero | src/memorytwin/escriba/storage.py:242 | missing distances read as 0 for every hit |
| Storage.Hits | src/memorytwin/escriba/storage.py:236-249 | ids with no stored episode are skipped, so there is one result per found id; each relevance is in [0,1] and carries the match reason |
| Storage.HitsFailIff | src/memorytwin/escriba/storage.py:236-249 | result validation fails iff some found hit has a negative distance |
| Storage.HitsFromIndex | src/memorytwin/escriba/storage.py:236-249 | each result is the stored episode of some hit, with that hit's relevance |
| Storage.SearchEpisodes | src/memorytwin/escriba/storage.py:202-251 | the search loop returns exactly those hits, with the local match reason |
| Storage.SearchHits | src/memorytwin/escriba/storage.py:234-251 | the loop over hits computes exactly the hit list, or the first validation failure |
| Storage.EntriesOf | src/memorytwin/escriba/storage.py:331-338 | one lesson entry per lesson of a record |
| Storage.LessonsCount | src/memorytwin/escriba/storage.py:313-340 | without a tag filter every lesson appears once; with one, no more than that |
| Storage.LessonsMembership | src/memorytwin/escriba/storage.py:313-340 | an entry is listed iff it comes from a record that has lessons and passes the any-tag filter |
| Storage.EntriesOfMembership | src/memorytwin/escriba/storage.py:331-338 | each entry carries a lesson, the task, timestamp, tags and episode id of its record |
| Storage.CollectLessons | src/memorytwin/escriba/storage.py:304-340 | the loop produces exactly the filtered lesson list |
| Storage.ToRecord | src/memorytwin/escriba/storage.py:177-196 | the record keeps the episode id as both keys and the type's string value |
| Storage.WithDefaultUsage | src/memorytwin/escriba/storage.py:386-402 | loading resets access count, importance and flags to their defaults and changes nothing else |
| Storage.RecordToEpisode | src/memorytwin/escriba/storage.py:382-402 | a record loads iff its type string is known; the episode keeps its id and type and has default usage |
| Storage.RecordRoundTrip | src/memorytwin/escriba/storage.py:382-402 | storing then loading gives the episode back with default usage fields, and exactly the episode when it already had them |
| Storage.FindRecord | src/memorytwin/escriba/storage.py:253-263 | lookup by id finds a record with that id, or fails when none has it |
| Storage.FindAppended | src/memorytwin/escriba/storage.py:197-198 | a record appended under a new id is found by that id |
| Storage.IndexMetaOf | src/memorytwin/escriba/storage.py:166-173 | the index metadata keeps at most the first 500 characters of the task |
| Storage.RecordsOfSnoc | src/memorytwin/escriba/storage.py:177-198 | only record writes add records, at the end |
| Storage.MemoryStorage.EpisodeById | src/memorytwin/escriba/storage.py:253-263 | no row with the id gives none; a row whose type value is unknown is an error, as `EpisodeType(...)` raises; otherwise the row's episode with that id and default usage |
| Storage.MemoryStorage.StoreEpisode | src/memorytwin/escriba/storage.py:147-200 | a new id writes the vector index first and then the SQL record, and returns the id; a duplicate id fails after the index write; a stored episode loads back with default usage |
| Storage.TypeValuesAreKinds | src/memorytwin/escriba/storage.py:353-358 | the statistics keys are the distinct type values, one per type |
| Storage.KnownTypeListed | src/memorytwin/escriba/storage.py:353-358 | a string is a statistics key iff it parses as a type |
| Storage.InProject | src/memorytwin/escriba/storage.py:345-348 | the project filter keeps a subset of the records |
| Storage.CountMap | src/memorytwin/escriba/storage.py:353-373 | the count map has exactly the given keys |
| Storage.CountsKeysSnoc | src/memorytwin/escriba/storage_chromadb_server.py:261-264 | bumping a known key keeps every key's count exact; an unknown key is ignored |
| Storage.TallyIsCountMap | src/memorytwin/escriba/storage_chromadb_server.py:266-267 | a tally over first-seen keys is the count map of the distinct values |
| Storage.CountPerKey | src/memorytwin/escriba/storage.py:353-358 | the per-type loop computes the count of every type value |
| Storage.StoreTypeCountsAtMost | src/memorytwin/escriba/storage.py:350-358 | the per-type counts add up to at most the total |
| Storage.StoreTypeCountsSum | src/memorytwin/escriba/storage.py:350-358 | when every stored type is known, the per-type counts add up to the total |
| Storage.StoreAssistantCountsSum | src/memorytwin/escriba/storage.py:360-373 | over all records, the per-assistant counts add up to the total |
| Storage.GetStatistics | src/memorytwin/escriba/storage.py:342-380 | the method computes the total, a count for every type value and a count per distinct assistant |
| StorageServer.SearchEpisodes | src/memorytwin/escriba/storage_chromadb_server.py:139-173 | the search shapes hits like the local store, with its own match reason |
| StorageServer.FullMetadataOf | src/memorytwin/escriba/storage_chromadb_server.py:89-137 | the full-metadata document keeps the id and the type's string value |
| StorageServer.MetadataToEpisode | src/memorytwin/escriba/storage_chromadb_server.py:277-297 | a document converts iff its type is known; the episode has default usage fields |
| StorageServer.MetadataRoundTrip | src/memorytwin/escriba/storage_chromadb_server.py:277-297 | storing then loading gives the episode back with default usage and a missing outcome read as empty text |
| StorageServer.EpisodeFromDocuments | src/memorytwin/escriba/storage_chromadb_server.py:175-190 | no document, an empty one or a parse failure gives None; otherwise the converted episode |
| StorageServer.InsertByTime | src/memorytwin/escriba/storage_chromadb_server.py:214 | inserting into a newest-first list keeps it newest-first and adds exactly that episode |
| StorageServer.SortNewestFirst | src/memorytwin/escriba/storage_chromadb_server.py:214 | the sort yields a newest-first permutation of its input |
| StorageServer.Fetched | src/memorytwin/escriba/storage_chromadb_server.py:207-211 | at most one episode per id, each fetched by one of the ids |
| StorageServer.TimelineShape | src/memorytwin/escriba/storage_chromadb_server.py:192-215 | the timeline has at most limit entries, sorted newest first, a permutation of the episodes fetched from the first limit ids |
| StorageServer.GetTimeline | src/memorytwin/escriba/storage_chromadb_server.py:192-215 | the loop, sort and cut compute exactly that timeline |
| StorageServer.EpisodeSources | src/memorytwin/escriba/storage_chromadb_server.py:234-241 | each episode is read as a lesson source with its id, task, timestamp, tags and lessons |
| StorageServer.GetLessons | src/memorytwin/escriba/storage_chromadb_server.py:217-243 | lessons come from the 500-entry timeline, filtered and shaped as in the local store |
| StorageServer.ServerStatisticsSums | src/memorytwin/escriba/storage_chromadb_server.py:254-268 | the type counts add up to at most the number of metadata records, and the assistant counts add up to exactly that number |
| StorageServer.MetasSnoc | src/memorytwin/escriba/storage_chromadb_server.py:262-266 | a missing type reads as "feature" and a missing assistant as "unknown" |
| StorageServer.GetStatistics | src/memorytwin/escriba/storage_chromadb_server.py:245-275 | the counting loop computes the total, every type key starting from 0 with unknown types ignored, and a count per assistant |
| StorageServer.BumpType | src/memorytwin/escriba/storage_chromadb_server.py:262-264 | one step keeps the type counts exact over the records seen |
| StorageServer.BumpAssistant | src/memorytwin/escriba/storage_chromadb_server.py:266-267 | one step keeps the assistant tally exact over the records seen |
| RagEngine.Blocks | src/memorytwin/oraculo/rag_engine.py:174-201 | one numbered block per result, in order, numbered from 1 |
| RagEngine.CombinedContextOrder | src/memorytwin/oraculo/rag_engine.py:205-256 | the meta-memory section precedes the episode section, and a section is left out when its list is empty |
| RagEngine.BuildContext | src/memorytwin/oraculo/rag_engine.py:169-203 | the loop builds the episode context under its header |
| RagEngine.BuildCombinedContext | src/memorytwin/oraculo/rag_engine.py:205-256 | the loop builds exactly the combined context |
| RagEngine.EpisodesOf | src/memorytwin/oraculo/rag_engine.py:152 | the episodes used are the results' episodes, index by index |
| RagEngine.ScoresOf | src/memorytwin/oraculo/rag_engine.py:154 | the scores are the results' relevances, index by index |
| RagEngine.MetasOf | src/memorytwin/oraculo/rag_engine.py:153 | the meta-memories used are the meta results' meta-memories, index by index |
| RagEngine.Query | src/memorytwin/oraculo/rag_engine.py:92-157 | the meta search runs iff requested, with top_k = min(3, top_k); a top_k outside [1,20] is rejected; with no results of either kind there is no model call, no context, the lists are empty and the reply has no meta scores; otherwise the answer comes from the combined context and the scores are index-aligned with the episodes and meta-memories used |
| RagEngine.GetTimeline | src/memorytwin/oraculo/rag_engine.py:279-315 | one entry per stored episode, in the same order |
| McpServer.Serializable | src/memorytwin/mcp_server/server.py:33-37 | a date-time becomes its ISO string and any other value is unchanged |
| McpServer.Formatted | src/memorytwin/mcp_server/server.py:31-38 | a formatted lesson keeps its keys in order and holds no date-time |
| McpServer.AllFormatted | src/memorytwin/mcp_server/server.py:28-39 | one formatted lesson per lesson, in order |
| McpServer.FormattedIdempotent | src/memorytwin/mcp_server/server.py:28-39 | formatting leaves a lesson without date-times unchanged, and formatting twice is formatting once |
| McpServer.FormatLesson | src/memorytwin/mcp_server/server.py:32-38 | the inner loop formats one lesson |
| McpServer.FormatLessons | src/memorytwin/mcp_server/server.py:28-39 | the outer loop formats every lesson |
| McpServer.CleanName | src/memorytwin/mcp_server/server.py:83-86 | stripping and replacing spaces gives a non-empty, space-free, stripped name, or "default"; a clean name is kept |
| McpServer.ProjectNameFor | src/memorytwin/mcp_server/server.py:50-89 | a generic directory name is replaced by a non-generic parent name, or by "default" when both are generic; the result is always clean |
| McpServer.DetectProjectName | src/memorytwin/mcp_server/server.py:50-93 | a failure to read the working directory gives "default"; the name is always clean |
| McpServer.ProjectArg | src/memorytwin/mcp_server/server.py:681 | a given non-empty project name wins over the detected one |
| McpServer.Rendered | src/memorytwin/mcp_server/server.py:662-678 | each section renders as its heading followed by its body |
| McpServer.DecisionSectionHeadings | src/memorytwin/mcp_server/server.py:662-676 | the decision text's sections carry exactly the listed headings, in that order |
| McpServer.DecisionSectionsOrder | src/memorytwin/mcp_server/server.py:662-678 | the decision sections come in the order Task, Context, Alternatives, Decision, Reasoning, Lesson |
| McpServer.DecisionSectionsPresent | src/memorytwin/mcp_server/server.py:662-678 | Decision and Reasoning are always present; Context, Alternatives and Lesson appear iff given |
| McpServer.BuildDecisionText | src/memorytwin/mcp_server/server.py:662-678 | the appending code builds exactly the sections joined by blank lines |
| McpServer.QuickSectionsOrder | src/memorytwin/mcp_server/server.py:747-755 | the quick text is What, Why and, iff given, Lesson |
| McpServer.BuildQuickText | src/memorytwin/mcp_server/server.py:747-755 | the appending code builds exactly those sections joined by blank lines |
| McpServer.LessonList | src/memorytwin/mcp_server/server.py:702 | the fallback lessons are the lesson alone if given, else none |
| McpServer.DecisionFallback | src/memorytwin/mcp_server/server.py:697-722 | the fallback decision episode is valid with default usage; its tags are "mcp", "capture_decision", "fallback", then "alternatives" iff alternatives were given |
| McpServer.QuickFallback | src/memorytwin/mcp_server/server.py:773-790 | the fallback quick episode is a valid learning episode tagged mcp, capture_quick, fallback |
| McpServer.ThinkingFallback | src/memorytwin/mcp_server/server.py:618-636 | the fallback raw capture is a valid learning episode with the raw text and no lessons |
| McpServer.CaptureDecision | src/memorytwin/mcp_server/server.py:659-724 | an episode is stored whether or not structuring succeeds: the structured one, or else the fallback |
| McpServer.CaptureQuick | src/memorytwin/mcp_server/server.py:744-792 | an episode is stored whether or not structuring succeeds |
| McpServer.CaptureThinking | src/memorytwin/mcp_server/server.py:602-638 | an episode is stored whether or not structuring succeeds |
| McpServer.WarningOf | src/memorytwin/mcp_server/server.py:1082-1095 | a warning carries the task and relevance, the first lesson or "Avoid this approach", and reasoning iff requested |
| McpServer.Warnings | src/memorytwin/mcp_server/server.py:1073-1102 | the warnings are empty iff no search hit is an antipattern |
| McpServer.WarningsFromAntipatterns | src/memorytwin/mcp_server/server.py:1073-1102 | each warning comes from an antipattern hit, and every antipattern hit gives a warning |
| McpServer.CollectWarnings | src/memorytwin/mcp_server/server.py:1073-1102 | the loop collects exactly those warnings |
| McpServer.MetaBriefOf | src/memorytwin/mcp_server/server.py:1115-1144 | a meta-memory brief keeps at most the first 3 lessons and 2 best practices |
| McpServer.SearchedMetaBriefs | src/memorytwin/mcp_server/server.py:1109-1127 | one brief per searched meta-memory, with its relevance |
| McpServer.RecentMetaBriefs | src/memorytwin/mcp_server/server.py:1128-1144 | one brief per recent meta-memory, without relevance |
| McpServer.EpisodeBriefs | src/memorytwin/mcp_server/server.py:1176-1188 | one brief per timeline entry, in order, copying its id, type, task, summary, date and tags |
| McpServer.RelevantEpisodes | src/memorytwin/mcp_server/server.py:1219-1236 | one entry per hit, in order: the episode's id, type value, task, solution summary, tags, lessons and critical flag, the hit's relevance, and the raw thinking, alternatives and decision factors iff requested |
| McpServer.ProjectContextOf | src/memorytwin/mcp_server/server.py:1004-1257 | no episodes gives the empty mode and nothing else; fewer than 20 gives the full context, otherwise the smart context with recent and relevant episodes or a tip; warnings appear iff a topic was given and a top-10 hit is an antipattern; lessons are formatted |
| McpServer.GetProjectContext | src/memorytwin/mcp_server/server.py:1004-1257 | the assembling code computes exactly that context |
| McpServer.EpisodeCountSumAtLeast | src/memorytwin/mcp_server/server.py:1368 | meta-memories of at least the minimum size consolidate at least that many episodes each |
| McpServer.ConsolidatedCounts | src/memorytwin/mcp_server/server.py:1348-1381 | the reply reports no clusters iff nothing was produced; otherwise it counts the meta-memories and at least the minimum size per meta-memory |
| McpServer.ConsolidateMemories | src/memorytwin/mcp_server/server.py:1273-1398 | a missing project is an error and a total below the minimum size declines, both storing nothing; otherwise the reply reflects the consolidation, whose meta-memories are stored |
| McpServer.UpdatesOf | src/memorytwin/mcp_server/server.py:1430-1439 | the update map holds exactly the given flags with their values, and is empty iff none was given |
| McpServer.BuildUpdates | src/memorytwin/mcp_server/server.py:1430-1439 | the field-by-field code builds exactly that map |
| McpServer.MarkMessageOf | src/memorytwin/mcp_server/server.py:1459-1470 | the message names an antipattern first and a critical mark last, and is empty iff neither was set to true |
| McpServer.FlagLog.UpdateEpisodeFlags | src/memorytwin/mcp_server/server.py:1451 | the update is recorded with the id and the map |
| McpServer.MarkEpisode | src/memorytwin/mcp_server/server.py:1400-1484 | a missing id, an unknown id or an empty update map is an error with no update; otherwise exactly one update is applied and the reply carries the task, the updates and the message |
| Processor.UserPromptShape | src/memorytwin/escriba/processor.py:184-200 | the prompt starts with the thinking header and raw text and ends with the instruction; the prompt and code sections appear iff given |
| Processor.BuildUserPrompt | src/memorytwin/escriba/processor.py:184-200 | the appending code builds exactly that prompt |
| Processor.FirstIndex | src/memorytwin/escriba/processor.py:157 | the first occurrence of a character, or none |
| Processor.LastIndex | src/memorytwin/escriba/processor.py:157 | the last occurrence of a character, or none |
| Processor.JsonBounds | src/memorytwin/escriba/processor.py:157 | the span runs from the first "{" to the last "}", and there is none iff no "{" precedes a "}" |
| Processor.JsonSpan | src/memorytwin/escriba/processor.py:157-161 | the extracted text starts with "{" and ends with "}" |
| Processor.ParseReply | src/memorytwin/escriba/processor.py:152-161 | direct decoding wins; otherwise the brace span is decoded; with no span the error is "no JSON found" |
| Processor.TypeOrDecision | src/memorytwin/escriba/processor.py:219-223 | a known type string gives its type, and any other gives DECISION |
| Processor.BuildEpisode | src/memorytwin/escriba/processor.py:202-237 | missing fields take their defaults; raw thinking falls back to the task or ""; project and assistant come from the arguments; a confidence outside [0,1] is rejected |
| Processor.BuildEpisodeRoundTrip | src/memorytwin/escriba/processor.py:202-237 | building from an episode's own data gives that episode back |
| Processor.BuildEpisodeDefaults | src/memorytwin/escriba/processor.py:225-234 | empty data gives the placeholder task and context, DECISION and empty solution and lists |
| Processor.Attempt | src/memorytwin/escriba/processor.py:95-170 | one attempt: a model error fails it; otherwise it succeeds iff the reply parses and the built episode validates, and then it is the episode built from the parsed reply, valid and with the given project and assistant; "no JSON found" iff the reply neither decodes nor holds a brace span |
| Processor.FirstSuccess | src/memorytwin/escriba/processor.py:89-94 | the first successful attempt, with every earlier one failed; a failure iff all attempts fail, and then the last attempt's failure |
| Processor.Attempts | src/memorytwin/escriba/processor.py:89-94 | exactly three attempts, the k-th with the k-th model call |
| Processor.ProcessThought | src/memorytwin/escriba/processor.py:89-170 | under the retry policy, the first of three attempts that succeeds; a failure iff all three fail, reported as a retry error carrying the third attempt's failure |
| Processor.ProcessedEpisodeValid | src/memorytwin/escriba/processor.py:89-170 | a produced episode is valid and carries the given project and assistant |
| Processor.FirstAttemptWins | src/memorytwin/escriba/processor.py:89-94 | a first attempt that succeeds is the result, with no retry |
| Processor.NoJsonExhausts | src/memorytwin/escriba/processor.py:152-161 | a model that never returns JSON ends in a retry error whose last failure is "no JSON found" |
| ProjectAnalyzer.PackageName | src/memorytwin/escriba/project_analyzer.py:303-304 | the package name is a prefix of the line containing none of "==", ">=", "<=", "[" |
| ProjectAnalyzer.PackageNameIdempotent | src/memorytwin/escriba/project_analyzer.py:303-304 | cutting a package name again changes nothing |
| ProjectAnalyzer.RequirementPackage | src/memorytwin/escriba/project_analyzer.py:299-305 | a line contributes iff, once stripped, it is non-empty, does not start with "#" or "-", and has a non-empty name |
| ProjectAnalyzer.PickAll | src/memorytwin/escriba/project_analyzer.py:299-305 | no more names than lines |
| ProjectAnalyzer.PickAllSound | src/memorytwin/escriba/project_analyzer.py:299-305 | every listed name is what the line reader (`RequirementPackage` for requirement names) finds in some line |
| ProjectAnalyzer.PickAllComplete | src/memorytwin/escriba/project_analyzer.py:299-305 | every line that names a package contributes that name |
| ProjectAnalyzer.AddAbsentBy | src/memorytwin/escriba/project_analyzer.py:316-319 | merging only appends to the main list |
| ProjectAnalyzer.AddAbsentNoDuplicates | src/memorytwin/escriba/project_analyzer.py:316-319 | merging into a duplicate-free list keeps it duplicate-free |
| ProjectAnalyzer.AddAbsentComplete | src/memorytwin/escriba/project_analyzer.py:316-319 | every non-empty dependency name (the package name, for `AddAbsent`) ends up in the list |
| ProjectAnalyzer.AddAbsentSound | src/memorytwin/escriba/project_analyzer.py:316-319 | nothing but main entries and dependency names ends up in the list |
| ProjectAnalyzer.DependenciesOf | src/memorytwin/escriba/project_analyzer.py:290-336 | at most 20 main and 10 dev dependencies, the main list cut from the merged sources |
| ProjectAnalyzer.DependencySources | src/memorytwin/escriba/project_analyzer.py:294-331 | requirement names come first, then absent pyproject names, then at most 15 package.json names |
| ProjectAnalyzer.CollectRequirements | src/memorytwin/escriba/project_analyzer.py:299-305 | the loop collects exactly the requirement names |
| ProjectAnalyzer.MergeAbsent | src/memorytwin/escriba/project_analyzer.py:316-319 | the loop merges exactly as specified |
| ProjectAnalyzer.AnalyzeDependencies | src/memorytwin/escriba/project_analyzer.py:290-336 | the result is `DependenciesOf`: requirement names, then absent pyproject names, then package.json names, cut to 20 main and 10 development entries, an absent file contributing nothing |
| ProjectAnalyzer.RStripSlash | src/memorytwin/escriba/project_analyzer.py:234 | trailing slashes are removed |
| ProjectAnalyzer.ExistingCountZero | src/memorytwin/escriba/project_analyzer.py:232-235 | the count is zero iff no listed directory exists |
| ProjectAnalyzer.HasPatternIff | src/memorytwin/escriba/project_analyzer.py:232-235 | a pattern holds iff at least two of its directories exist |
| ProjectAnalyzer.DirectoryPatterns | src/memorytwin/escriba/project_analyzer.py:216-218 | at most one directory entry per table row |
| ProjectAnalyzer.CompositeOf | src/memorytwin/escriba/project_analyzer.py:221-228 | at most one composite pattern, with priority DDD, then MVC, then React, then Layered |
| ProjectAnalyzer.ScanDirectories | src/memorytwin/escriba/project_analyzer.py:216-218 | the loop lists exactly the existing directories |
| ProjectAnalyzer.IdentifyPatterns | src/memorytwin/escriba/project_analyzer.py:212-230 | directory patterns followed by the composite pattern, if any |
| ProjectAnalyzer.AtMostOneComposite | src/memorytwin/escriba/project_analyzer.py:212-230 | only the last entry can be composite |
| ProjectAnalyzer.FirstReadme | src/memorytwin/escriba/project_analyzer.py:242-254 | the first README name that exists is read |
| ProjectAnalyzer.UntilHeadingCut | src/memorytwin/escriba/project_analyzer.py:249-252 | lines are taken up to the first "## " line |
| ProjectAnalyzer.SummaryLinesCut | src/memorytwin/escriba/project_analyzer.py:249-252 | the summary keeps the first line, then stops before a "## " line |
| ProjectAnalyzer.ReadmeSummaryOf | src/memorytwin/escriba/project_analyzer.py:247-253 | the summary comes from the first 30 lines and is at most 1000 characters |
| ProjectAnalyzer.ReadmeSummary | src/memorytwin/escriba/project_analyzer.py:247-253 | the loop with its early break computes exactly the summary |
| ProjectAnalyzer.DetectedToolsMembership | src/memorytwin/escriba/project_analyzer.py:378-382 | a tool is detected iff one of its files exists |
| ProjectAnalyzer.ScanTools | src/memorytwin/escriba/project_analyzer.py:358-363 | the detected tools have no duplicates, and a tool is listed iff one of its files exists |
| ProjectAnalyzer.DetectConventions | src/memorytwin/escriba/project_analyzer.py:338-386 | the linting and testing lists have no duplicates and hold exactly the tools detected |
| ProjectAnalyzer.ReadConfigFiles | src/memorytwin/escriba/project_analyzer.py:237-288 | the README summary is present iff a README exists and is at most 1000 characters; at most 10 scripts are kept |
| ProjectAnalyzer.OnboardingStart | src/memorytwin/escriba/project_analyzer.py:398-402 | the text starts with the onboarding header and project name |
| ProjectAnalyzer.OnboardingEnd | src/memorytwin/escriba/project_analyzer.py:460-468 | the text always ends with the recommendations section |
| ProjectAnalyzer.RecommendationsShape | src/memorytwin/escriba/project_analyzer.py:460-466 | the recommendations end with the advice to consult memory, and advise tests iff testing tools were found |
| ProjectAnalyzer.GenerateOnboardingText | src/memorytwin/escriba/project_analyzer.py:388-468 | the appending code builds exactly the onboarding text |
| Config.JsonModeCheckIgnoresCase | src/memorytwin/config.py:194-202 | the check ignores case, and any message containing one of the three markers is recognised |
| Config.LowerKeepsMarker | src/memorytwin/config.py:197-202 | a lower-case marker found in the message is still found once the message is lower-cased |
| Config.ConvertMessage | src/memorytwin/config.py:235-237 | "model" becomes "assistant" and other roles are kept; the content is the first part, else the content, else "" |
| Config.ConvertMessages | src/memorytwin/config.py:233-238 | one converted message per message, in order, none with the role "model" |
| Config.Attempts | src/memorytwin/config.py:205-223 | one request, plus exactly one retry without JSON mode iff JSON mode was on and the error refused it |
| Config.GenerateOutcome | src/memorytwin/config.py:204-224 | the text of the last request; null content becomes ""; any other error is passed on |
| Config.OpenRouterClient.constructor | src/memorytwin/config.py:163-182 | JSON mode is on iff the mime type is application/json |
| Config.OpenRouterClient.Generate | src/memorytwin/config.py:204-224 | the prompt is sent as one user message with at most one retry, and the outcome is as specified |
| Config.OpenRouterClient.GenerateAsync | src/memorytwin/config.py:226-257 | the converted messages are sent with at most one retry, and the outcome is as specified |
| Config.KeyOf | src/memorytwin/config.py:292-293 | the key's temperature is the override or the setting |
| Config.ClientFor | src/memorytwin/config.py:295-315 | dispatch succeeds iff the provider is google, gemini or openrouter in any case; google and gemini give the Gemini client and openrouter the OpenRouter client; the client keeps model, temperature and token limit, and OpenRouter has JSON mode iff the mime type is JSON |
| Config.ProviderCaseInsensitive | src/memorytwin/config.py:296 | dispatch gives the same client for the lower-cased provider |
| Config.NewClient | src/memorytwin/config.py:295-315 | an unknown provider is an error; a known one fails iff its API key is empty |
| Config.ClientCache.GetLlmModel | src/memorytwin/config.py:267-317 | a cached key returns its client and leaves the cache alone; otherwise a built client is added under its key and a failure adds nothing; every cached client matches its key |

## Left out

- Vector index, SQLite, embeddings, DBSCAN and the language model: foreign calls. They are parameters whose outputs are arbitrary, as described above.
- Embedding normalisation and the DBSCAN parameters: floating-point numerics outside the model. Clustering is its label sequence.
- Consolidation.ConsolidateProject: the `force` argument is accepted and ignored, as in the code; nothing records which episodes were consolidated, so a re-run re-clusters everything.
- The prompt constants of the language model and the Langfuse tracing spans: text and telemetry with no logic.
- The MCP transport, tool registration, the executor and its 120-second consolidation timeout: protocol plumbing and concurrency.
- The user interfaces, the CLI, the Escriba orchestration and the migration scripts: console and file I/O.
- The storage methods that are called but not defined in the source (`store_meta_memory`, `search_meta_memories`, `update_episode_flags`, `check_consolidation_needed`, `get_meta_memory_statistics`): they are abstract. The meta-memory store is an append log, flag updates are a log plus an accepted/refused input, and searches are input sequences.
- `_analyze_structure`, `_detect_stack`, `analyze` and `onboard_project`: file-system walks whose results enter the onboarding text as inputs.
- Percent and date formatting in tool replies: presentation only. Timestamps are integers and ISO conversion is a parameter.
- Text.Lower: only ASCII letters are lower-cased; Unicode case mapping is not modelled. Text.Strip removes exactly the characters `str.isspace` accepts.
- ProjectAnalyzer.DetectConventions: Python's `list(set(...))` has no defined order, so the contract states membership and no duplicates but not order.
- ProjectAnalyzer.ScanTools: for the same reason, order is not stated.
- StorageServer.SortNewestFirst: the order of episodes with equal timestamps is not stated.
- Config.ConvertMessage: it requires non-empty `parts`, because the code raises IndexError on an empty list. The model does not represent that exception.
- Config.ClientCache.GetLlmModel: a client is represented by its configuration, so "the same client object" is stated as equality of configurations.
- Config.GenerateOutcome: an error raised by the endpoint, on the first request or on the retry, is returned as an error value rather than propagated as an exception.
- Storage.MemoryStorage.StoreEpisode: a second store under an existing id is modelled as a failure after the index write. In the code this is the SQL integrity error.
- Consolidation.Synthesis: a reply whose coherence is outside [0,1] fails the cluster, as Pydantic validation does; coherence is not clamped.
- Processor.ProcessThought: the exponential wait of 2 to 10 seconds between attempts and the retry log are not modelled; the identifier and the clock are those of the attempt whose episode is returned, since a failed attempt's are never seen.
- Python floats are exact reals: rounding in the score and confidence formulas is not modelled.
