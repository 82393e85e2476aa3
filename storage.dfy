/** The local memory store: a vector index beside an SQL table of episode
    records. The embedding model, the index's nearest-neighbour search, JSON
    encoding and the SQL engine are outside the model: a search arrives as
    the ids and distances the index returned, a query as the records it
    selected, and a stored record is a value. */
module Storage {
  import opened Wrappers
  import opened Text
  import opened Seqs
  import opened Models

  // ---------------------------------------------------------------------
  // Relevance of a search hit

  /** `max(0, 1 - distance / 2)`: an index distance turned into a relevance score. */
  function Relevance(distance: real): (r: real)
    ensures r >= 0.0
    ensures distance == 0.0 ==> r == 1.0
    ensures distance >= 0.0 ==> InUnit(r)
    ensures distance < 0.0 ==> r > 1.0
    ensures distance >= 2.0 ==> r == 0.0
  {
    var s := 1.0 - distance / 2.0;
    if 0.0 >= s then 0.0 else s
  }

  /** A nearer hit is never less relevant. */
  lemma RelevanceAntitone(near: real, far: real)
    requires near <= far
    ensures Relevance(far) <= Relevance(near)
  {
  }

  // ---------------------------------------------------------------------
  // Turning index hits into search results

  /** The distances the index returned, or 0 for every hit when it returned none. */
  function DistancesOrZero(distances: Option<seq<real>>, n: nat): (d: seq<real>)
    requires distances.Some? ==> |distances.value| == n
    ensures |d| == n
    ensures distances.None? ==> forall i :: 0 <= i < n ==> d[i] == 0.0
  {
    if distances.Some? then distances.value else seq(n, _ => 0.0)
  }

  /** How many of `ids` have a stored episode. */
  function FoundCount(ids: seq<string>, lookup: string -> Option<Episode>): (n: nat)
    ensures n <= |ids|
    decreases |ids|
  {
    if |ids| == 0 then 0
    else FoundCount(ids[..|ids| - 1], lookup) + (if lookup(ids[|ids| - 1]).Some? then 1 else 0)
  }

  /** The search results for the index hits `ids` at distances `dist`, in index order: a
      hit without a stored episode is skipped, and a relevance the result schema rejects
      fails the whole search. */
  function Hits(ids: seq<string>, dist: seq<real>, lookup: string -> Option<Episode>, reason: string)
    : (r: Result<seq<MemorySearchResult>, seq<string>>)
    requires |dist| == |ids|
    ensures r.Failure? ==> r.error == ["relevance_score"]
    ensures r.Success? ==> |r.value| == FoundCount(ids, lookup)
    ensures r.Success? ==> forall x :: x in r.value ==> InUnit(x.relevance) && x.matchReason == reason
    decreases |ids|
  {
    if |ids| == 0 then Success([])
    else
      var n := |ids| - 1;
      var prefix := Hits(ids[..n], dist[..n], lookup, reason);
      var found := lookup(ids[n]);
      if prefix.Failure? || found.None? then prefix
      else
        var hit := NewSearchResult(found.value, Relevance(dist[n]));
        if hit.Failure? then Failure(hit.error)
        else Success(prefix.value + [hit.value.(matchReason := reason)])
  }

  /** The search fails exactly when a hit with a stored episode lies at a negative
      distance; with the non-negative distances of the index it always succeeds. */
  lemma {:induction false} HitsFailIff(ids: seq<string>, dist: seq<real>, lookup: string -> Option<Episode>, reason: string)
    requires |dist| == |ids|
    ensures Hits(ids, dist, lookup, reason).Failure? <==>
            exists i :: 0 <= i < |ids| && lookup(ids[i]).Some? && dist[i] < 0.0
    ensures (forall i :: 0 <= i < |dist| ==> dist[i] >= 0.0) ==> Hits(ids, dist, lookup, reason).Success?
    decreases |ids|
  {
    if |ids| > 0 {
      var n := |ids| - 1;
      HitsFailIff(ids[..n], dist[..n], lookup, reason);
      if exists i :: 0 <= i < n && lookup(ids[..n][i]).Some? && dist[..n][i] < 0.0 {
        var i :| 0 <= i < n && lookup(ids[..n][i]).Some? && dist[..n][i] < 0.0;
        assert lookup(ids[i]).Some? && dist[i] < 0.0;
      }
      if exists i :: 0 <= i < |ids| && lookup(ids[i]).Some? && dist[i] < 0.0 {
        var i :| 0 <= i < |ids| && lookup(ids[i]).Some? && dist[i] < 0.0;
        if i < n {
          assert ids[..n][i] == ids[i] && dist[..n][i] == dist[i];
        }
      }
    }
  }

  /** Every result is the stored episode of one of the hits, scored from that hit's distance. */
  lemma {:induction false} HitsFromIndex(ids: seq<string>, dist: seq<real>, lookup: string -> Option<Episode>, reason: string)
    requires |dist| == |ids|
    ensures var r := Hits(ids, dist, lookup, reason);
            r.Success? ==> forall k :: 0 <= k < |r.value| ==>
              exists i :: 0 <= i < |ids| && lookup(ids[i]) == Some(r.value[k].episode) &&
                          r.value[k].relevance == Relevance(dist[i])
    decreases |ids|
  {
    if |ids| > 0 {
      var n := |ids| - 1;
      var r := Hits(ids, dist, lookup, reason);
      var p := Hits(ids[..n], dist[..n], lookup, reason);
      HitsFromIndex(ids[..n], dist[..n], lookup, reason);
      if r.Success? && p.Success? {
        forall k | 0 <= k < |r.value|
          ensures exists i :: 0 <= i < |ids| && lookup(ids[i]) == Some(r.value[k].episode) &&
                              r.value[k].relevance == Relevance(dist[i])
        {
          if k < |p.value| {
            assert r.value[k] == p.value[k];
            var i :| 0 <= i < n && lookup(ids[..n][i]) == Some(p.value[k].episode) &&
                     p.value[k].relevance == Relevance(dist[..n][i]);
            assert ids[..n][i] == ids[i] && dist[..n][i] == dist[i];
          } else {
            assert lookup(ids[n]) == Some(r.value[k].episode);
          }
        }
      }
    }
  }

  /** Once a prefix of the hits fails, the whole search fails the same way. */
  lemma {:induction false} HitsKeepFailure(ids: seq<string>, dist: seq<real>, lookup: string -> Option<Episode>, reason: string, k: nat)
    requires |dist| == |ids| && k <= |ids|
    requires Hits(ids[..k], dist[..k], lookup, reason).Failure?
    ensures Hits(ids, dist, lookup, reason) == Hits(ids[..k], dist[..k], lookup, reason)
    decreases |ids|
  {
    if k < |ids| {
      var n := |ids| - 1;
      assert ids[..n][..k] == ids[..k] && dist[..n][..k] == dist[..k];
      HitsKeepFailure(ids[..n], dist[..n], lookup, reason, k);
    } else {
      assert ids[..k] == ids && dist[..k] == dist;
    }
  }

  const LocalMatchReason: string := "Coincidencia semántica con la consulta"

  /** `search_episodes` of the local store, after the index query. */
  method SearchEpisodes(ids: seq<string>, distances: Option<seq<real>>, lookup: string -> Option<Episode>)
    returns (r: Result<seq<MemorySearchResult>, seq<string>>)
    requires distances.Some? ==> |distances.value| == |ids|
    ensures r == Hits(ids, DistancesOrZero(distances, |ids|), lookup, LocalMatchReason)
  {
    r := SearchHits(ids, distances, lookup, LocalMatchReason);
  }

  /** Each hit's episode is fetched by id and wrapped with its relevance and `reason`. */
  method SearchHits(ids: seq<string>, distances: Option<seq<real>>, lookup: string -> Option<Episode>, reason: string)
    returns (r: Result<seq<MemorySearchResult>, seq<string>>)
    requires distances.Some? ==> |distances.value| == |ids|
    ensures r == Hits(ids, DistancesOrZero(distances, |ids|), lookup, reason)
  {
    var dist := DistancesOrZero(distances, |ids|);
    var results: seq<MemorySearchResult> := [];
    for i := 0 to |ids|
      invariant Hits(ids[..i], dist[..i], lookup, reason) == Success(results)
    {
      assert ids[..i + 1][..i] == ids[..i] && dist[..i + 1][..i] == dist[..i];
      var episode := lookup(ids[i]);
      if episode.Some? {
        var hit := NewSearchResult(episode.value, Relevance(dist[i]));
        if hit.Failure? {
          HitsKeepFailure(ids, dist, lookup, reason, i + 1);
          return Failure(hit.error);
        }
        results := results + [hit.value.(matchReason := reason)];
      }
    }
    assert ids[..|ids|] == ids && dist[..|dist|] == dist;
    return Success(results);
  }

  // ---------------------------------------------------------------------
  // Lessons learned

  /** A value of a lesson dictionary: text, a list of tags, or a date-time. */
  datatype Value = Str(s: string) | StrList(items: seq<string>) | Stamp(t: int)

  /** A dictionary, its entries in insertion order. */
  type Dict = seq<(string, Value)>

  /** What the lesson aggregation reads of one stored episode. */
  datatype LessonSource = LessonSource(id: string, task: string, timestamp: int, tags: seq<string>, lessons: seq<string>)

  /** The entry of one lesson: the lesson, its episode's task, date-time, tags and id. */
  function LessonEntry(src: LessonSource, lesson: string): Dict {
    [("lesson", Str(lesson)), ("from_task", Str(src.task)), ("timestamp", Stamp(src.timestamp)),
     ("tags", StrList(src.tags)), ("episode_id", Str(src.id))]
  }

  /** An episode contributes when it has lessons and there is no tag filter or it carries
      one of the filter's tags. */
  predicate Selected(src: LessonSource, tags: seq<string>) {
    |src.lessons| > 0 && (|tags| == 0 || exists t :: t in tags && t in src.tags)
  }

  function EntriesOf(src: LessonSource): (r: seq<Dict>)
    ensures |r| == |src.lessons|
  {
    seq(|src.lessons|, j requires 0 <= j < |src.lessons| => LessonEntry(src, src.lessons[j]))
  }

  /** The entries of every lesson of every selected source, in source then lesson order. */
  function Lessons(sources: seq<LessonSource>, tags: seq<string>): seq<Dict>
    decreases |sources|
  {
    if |sources| == 0 then []
    else
      var n := |sources| - 1;
      Lessons(sources[..n], tags) + (if Selected(sources[n], tags) then EntriesOf(sources[n]) else [])
  }

  function TotalLessons(sources: seq<LessonSource>): nat
    decreases |sources|
  {
    if |sources| == 0 then 0 else TotalLessons(sources[..|sources| - 1]) + |sources[|sources| - 1].lessons|
  }

  /** Without a tag filter every lesson gets an entry; a filter only removes entries. */
  lemma {:induction false} LessonsCount(sources: seq<LessonSource>, tags: seq<string>)
    ensures |Lessons(sources, [])| == TotalLessons(sources)
    ensures |Lessons(sources, tags)| <= TotalLessons(sources)
    decreases |sources|
  {
    if |sources| > 0 {
      LessonsCount(sources[..|sources| - 1], tags);
    }
  }

  /** An entry is produced exactly for each lesson of each selected source. */
  lemma LessonsMembership(sources: seq<LessonSource>, tags: seq<string>, d: Dict)
    ensures d in Lessons(sources, tags) <==>
            exists i :: 0 <= i < |sources| && Selected(sources[i], tags) && d in EntriesOf(sources[i])
  {
    if d in Lessons(sources, tags) {
      LessonsSound(sources, tags, d);
    }
    if exists i :: 0 <= i < |sources| && Selected(sources[i], tags) && d in EntriesOf(sources[i]) {
      var i :| 0 <= i < |sources| && Selected(sources[i], tags) && d in EntriesOf(sources[i]);
      LessonsListed(sources, tags, d, i);
    }
  }

  /** Every entry comes from a lesson of a selected source. */
  lemma {:induction false} LessonsSound(sources: seq<LessonSource>, tags: seq<string>, d: Dict)
    requires d in Lessons(sources, tags)
    ensures exists i :: 0 <= i < |sources| && Selected(sources[i], tags) && d in EntriesOf(sources[i])
    decreases |sources|
  {
    var n := |sources| - 1;
    var pre := sources[..n];
    LessonsStep(sources, tags, d);
    if d in Lessons(pre, tags) {
      LessonsSound(pre, tags, d);
      var i :| 0 <= i < |pre| && Selected(pre[i], tags) && d in EntriesOf(pre[i]);
      assert pre[i] == sources[i];
    }
  }

  /** Every lesson of a selected source is listed. */
  lemma {:induction false} LessonsListed(sources: seq<LessonSource>, tags: seq<string>, d: Dict, i: int)
    requires 0 <= i < |sources| && Selected(sources[i], tags) && d in EntriesOf(sources[i])
    ensures d in Lessons(sources, tags)
    decreases |sources|
  {
    var n := |sources| - 1;
    LessonsStep(sources, tags, d);
    if i < n {
      assert sources[..n][i] == sources[i];
      LessonsListed(sources[..n], tags, d, i);
    }
  }

  /** One more source adds its entries when it is selected. */
  lemma LessonsStep(sources: seq<LessonSource>, tags: seq<string>, d: Dict)
    requires |sources| > 0
    ensures var n := |sources| - 1;
            d in Lessons(sources, tags) <==>
            d in Lessons(sources[..n], tags) || (Selected(sources[n], tags) && d in EntriesOf(sources[n]))
  {
  }

  /** The entries of a source are those of its lessons. */
  lemma EntriesOfMembership(src: LessonSource, d: Dict)
    ensures d in EntriesOf(src) <==> exists j :: 0 <= j < |src.lessons| && d == LessonEntry(src, src.lessons[j])
  {
    if d in EntriesOf(src) {
      var j :| 0 <= j < |EntriesOf(src)| && EntriesOf(src)[j] == d;
    }
    if exists j :: 0 <= j < |src.lessons| && d == LessonEntry(src, src.lessons[j]) {
      var j :| 0 <= j < |src.lessons| && d == LessonEntry(src, src.lessons[j]);
      assert EntriesOf(src)[j] == d;
    }
  }

  /** Appends, source by source and lesson by lesson, the entries of the selected sources. */
  method CollectLessons(sources: seq<LessonSource>, tags: seq<string>) returns (lessons: seq<Dict>)
    ensures lessons == Lessons(sources, tags)
  {
    lessons := [];
    for i := 0 to |sources|
      invariant lessons == Lessons(sources[..i], tags)
    {
      var src := sources[i];
      assert sources[..i + 1][..i] == sources[..i];
      if Selected(src, tags) {
        ghost var before := lessons;
        for j := 0 to |src.lessons|
          invariant lessons == before + EntriesOf(src)[..j]
        {
          assert EntriesOf(src)[..j + 1] == EntriesOf(src)[..j] + [LessonEntry(src, src.lessons[j])];
          lessons := lessons + [LessonEntry(src, src.lessons[j])];
        }
        assert EntriesOf(src)[..|src.lessons|] == EntriesOf(src);
      }
    }
    assert sources[..|sources|] == sources;
  }

  // ---------------------------------------------------------------------
  // Records of the SQL table

  /** A row of the episodes table. The reasoning trace, tags, files and lessons are JSON
      columns, held here as the values they encode. */
  datatype EpisodeRecord = EpisodeRecord(
    id: string,
    timestamp: int,
    task: string,
    context: string,
    trace: ReasoningTrace,
    solution: Option<string>,
    solutionSummary: Option<string>,
    outcome: Option<string>,
    success: bool,
    episodeType: string,
    tags: seq<string>,
    filesAffected: seq<string>,
    lessons: seq<string>,
    sourceAssistant: string,
    projectName: string,
    chromaId: string)

  /** The row written for an episode. */
  function ToRecord(e: Episode): (r: EpisodeRecord)
    ensures r.id == e.id && r.chromaId == e.id
    ensures ParseType(r.episodeType) == Some(e.episodeType)
  {
    ParseTypeValue(e.episodeType);
    EpisodeRecord(e.id, e.timestamp, e.task, e.context, e.trace, Some(e.solution), Some(e.solutionSummary),
                  e.outcome, e.success, TypeValue(e.episodeType), e.tags, e.filesAffected, e.lessons,
                  e.sourceAssistant, e.projectName, e.id)
  }

  /** The episode with the fields the table has no column for at their defaults. */
  function WithDefaultUsage(e: Episode): (d: Episode)
    ensures d.HasDefaultUsage()
    ensures e.HasDefaultUsage() ==> d == e
  {
    e.(importance := 1.0, accessCount := 0, lastAccessed := None, isAntipattern := false,
       isCritical := false, supersededBy := None, deprecationReason := None)
  }

  /** The episode a row loads as; a row whose type is not a known kind fails to load. */
  function RecordToEpisode(r: EpisodeRecord): (e: Option<Episode>)
    ensures e.Some? <==> ParseType(r.episodeType).Some?
    ensures e.Some? ==> e.value.HasDefaultUsage() && e.value.id == r.id && TypeValue(e.value.episodeType) == r.episodeType
  {
    match ParseType(r.episodeType)
    case None => None
    case Some(t) =>
      Some(NewEpisode(r.id, r.timestamp, r.task, r.context, r.trace, r.solution.GetOr(""),
                      r.solutionSummary.GetOr(""), t, r.tags, r.filesAffected, r.lessons,
                      r.sourceAssistant, r.projectName).(outcome := r.outcome, success := r.success))
  }

  /** Storing and loading an episode gives it back with its usage fields and flags reset. */
  lemma RecordRoundTrip(e: Episode)
    ensures RecordToEpisode(ToRecord(e)) == Some(WithDefaultUsage(e))
    ensures e.HasDefaultUsage() ==> RecordToEpisode(ToRecord(e)) == Some(e)
  {
    ParseTypeValue(e.episodeType);
  }

  /** What the lesson aggregation reads of a row. */
  function RecordSource(r: EpisodeRecord): LessonSource {
    LessonSource(r.id, r.task, r.timestamp, r.tags, r.lessons)
  }

  /** The first row with the given id. */
  function FindRecord(records: seq<EpisodeRecord>, id: string): (r: Option<EpisodeRecord>)
    ensures r.Some? ==> r.value in records && r.value.id == id
    ensures r.None? ==> forall x :: x in records ==> x.id != id
    decreases |records|
  {
    if |records| == 0 then None
    else if records[0].id == id then Some(records[0])
    else FindRecord(records[1..], id)
  }

  /** A row appended under a new id is the one found for it. */
  lemma {:induction false} FindAppended(records: seq<EpisodeRecord>, r: EpisodeRecord)
    requires FindRecord(records, r.id).None?
    ensures FindRecord(records + [r], r.id) == Some(r)
    decreases |records|
  {
    if |records| == 0 {
    } else {
      assert (records + [r])[1..] == records[1..] + [r];
      FindAppended(records[1..], r);
    }
  }

  // ---------------------------------------------------------------------
  // Storing an episode

  /** The metadata the vector index keeps beside an embedding. */
  datatype IndexMeta = IndexMeta(task: string, episodeType: string, projectName: string,
                                 sourceAssistant: string, timestamp: int, tags: string)

  const IndexTaskLimit: nat := 500

  function IndexMetaOf(e: Episode): (m: IndexMeta)
    ensures |m.task| <= IndexTaskLimit && m.task <= e.task
  {
    IndexMeta(Take(e.task, IndexTaskLimit), TypeValue(e.episodeType), e.projectName, e.sourceAssistant,
              e.timestamp, Join(",", e.tags))
  }

  /** One write to the store: an embedding added to the vector index, or a row added to the
      table. */
  datatype Write = IndexAdd(id: string, meta: IndexMeta, document: string) | RecordAdd(record: EpisodeRecord)

  /** The rows of the table after the given writes. */
  function RecordsOf(writes: seq<Write>): seq<EpisodeRecord>
    decreases |writes|
  {
    if |writes| == 0 then []
    else
      var n := |writes| - 1;
      RecordsOf(writes[..n]) + (if writes[n].RecordAdd? then [writes[n].record] else [])
  }

  lemma RecordsOfSnoc(writes: seq<Write>, w: Write)
    ensures RecordsOf(writes + [w]) == RecordsOf(writes) + (if w.RecordAdd? then [w.record] else [])
  {
    assert (writes + [w])[..|writes|] == writes;
  }

  /** The two stores behind one interface, as the sequence of writes made to them. */
  class MemoryStorage {
    var writes: seq<Write>

    constructor ()
      ensures writes == []
    {
      writes := [];
    }

    function Records(): seq<EpisodeRecord>
      reads this
    {
      RecordsOf(writes)
    }

    /** `get_episode_by_id`: the episode of the row with that id, or none when no row has
        it; a row whose type value is not a known type cannot be read back, which the code
        reports by raising. */
    function EpisodeById(id: string): (r: Result<Option<Episode>, string>)
      reads this
      ensures r == Success(None) <==> FindRecord(Records(), id).None?
      ensures r.Failure? <==> FindRecord(Records(), id).Some? &&
                              ParseType(FindRecord(Records(), id).value.episodeType).None?
      ensures r.Success? && r.value.Some? ==> r.value.value.id == id && r.value.value.HasDefaultUsage()
    {
      match FindRecord(Records(), id)
      case None => Success(None)
      case Some(rec) =>
        match RecordToEpisode(rec)
        case None => Failure("episode_type")
        case Some(e) => Success(Some(e))
    }

    /** `store_episode`: the embedding goes to the index first, then the row to the table; a
        row whose id is already present is refused by the table after the index write. */
    method StoreEpisode(e: Episode) returns (r: Result<string, string>)
      modifies this
      ensures FindRecord(old(Records()), e.id).None? ==>
                r == Success(e.id) &&
                writes == old(writes) + [IndexAdd(e.id, IndexMetaOf(e), e.trace.rawThinking), RecordAdd(ToRecord(e))]
      ensures FindRecord(old(Records()), e.id).Some? ==>
                r.Failure? && writes == old(writes) + [IndexAdd(e.id, IndexMetaOf(e), e.trace.rawThinking)]
      ensures r.Success? ==> EpisodeById(e.id) == Success(Some(WithDefaultUsage(e)))
    {
      var add := IndexAdd(e.id, IndexMetaOf(e), e.trace.rawThinking);
      RecordsOfSnoc(writes, add);
      writes := writes + [add];
      if FindRecord(Records(), e.id).Some? {
        return Failure("duplicate episode id");
      }
      var rec := ToRecord(e);
      RecordsOfSnoc(writes, RecordAdd(rec));
      FindAppended(Records(), rec);
      writes := writes + [RecordAdd(rec)];
      RecordRoundTrip(e);
      return Success(e.id);
    }
  }

  // ---------------------------------------------------------------------
  // Statistics

  /** The statistics report: the number of episodes, and counts per type and per assistant. */
  datatype Statistics = Statistics(total: nat, byType: map<string, nat>, byAssistant: map<string, nat>)

  /** The wire values of the seven kinds, in declaration order. */
  const TypeValues: seq<string> := ["decision", "bug_fix", "refactor", "feature", "optimization", "learning", "experiment"]

  lemma TypeValuesDistinct()
    ensures NoDuplicates(TypeValues)
  {
  }

  /** The list holds each kind's wire value, once. */
  lemma TypeValuesAreKinds()
    ensures NoDuplicates(TypeValues)
    ensures forall t :: TypeValue(t) in TypeValues
  {
    TypeValuesDistinct();
    forall t ensures TypeValue(t) in TypeValues {
      match t
      case Decision => assert TypeValue(t) == TypeValues[0];
      case BugFix => assert TypeValue(t) == TypeValues[1];
      case Refactor => assert TypeValue(t) == TypeValues[2];
      case Feature => assert TypeValue(t) == TypeValues[3];
      case Optimization => assert TypeValue(t) == TypeValues[4];
      case Learning => assert TypeValue(t) == TypeValues[5];
      case Experiment => assert TypeValue(t) == TypeValues[6];
    }
  }

  /** A string parses as a kind exactly when it is listed. */
  lemma KnownTypeListed(s: string)
    ensures s in TypeValues <==> ParseType(s).Some?
  {
  }

  /** The rows a project filter selects, in order. */
  function InProject(records: seq<EpisodeRecord>, project: Option<string>): (r: seq<EpisodeRecord>)
    ensures |r| <= |records|
    ensures forall x :: x in r ==> x in records
    decreases |records|
  {
    if |records| == 0 then []
    else
      var n := |records| - 1;
      InProject(records[..n], project) +
      (if !Given(project) || records[n].projectName == project.value then [records[n]] else [])
  }

  function TypesOfRecords(rs: seq<EpisodeRecord>): (r: seq<string>)
    ensures |r| == |rs|
  {
    seq(|rs|, i requires 0 <= i < |rs| => rs[i].episodeType)
  }

  function AssistantsOfRecords(rs: seq<EpisodeRecord>): (r: seq<string>)
    ensures |r| == |rs|
  {
    seq(|rs|, i requires 0 <= i < |rs| => rs[i].sourceAssistant)
  }

  /** The occurrence count in `xs` of each key in `keys`. */
  function CountMap(keys: seq<string>, xs: seq<string>): (m: map<string, nat>)
    ensures forall k :: k in m <==> k in keys
  {
    map k | k in keys :: Count(xs, k)
  }

  lemma CountMapSnoc(keys: seq<string>, k: int, xs: seq<string>)
    requires 0 <= k < |keys|
    ensures CountMap(keys[..k + 1], xs) == CountMap(keys[..k], xs)[keys[k] := Count(xs, keys[k])]
  {
    assert keys[..k + 1] == keys[..k] + [keys[k]];
  }

  /** `m` holds, for each key of `keys` and nothing else, its occurrence count in `xs`. */
  ghost predicate CountsKeys(m: map<string, nat>, keys: seq<string>, xs: seq<string>) {
    (forall k :: k in m <==> k in keys) &&
    (forall k :: k in m ==> m[k] == Count(xs, k))
  }

  lemma CountsKeysIsCountMap(m: map<string, nat>, keys: seq<string>, xs: seq<string>)
    requires CountsKeys(m, keys, xs)
    ensures m == CountMap(keys, xs)
  {
    var c := CountMap(keys, xs);
    assert m.Keys == c.Keys;
  }

  /** One more element raises its own count by one, if it is a key, and nothing else. */
  lemma CountsKeysSnoc(m: map<string, nat>, keys: seq<string>, xs: seq<string>, x: string)
    requires CountsKeys(m, keys, xs)
    ensures x in m ==> CountsKeys(m[x := m[x] + 1], keys, xs + [x])
    ensures x !in m ==> CountsKeys(m, keys, xs + [x])
  {
    forall k ensures Count(xs + [x], k) == Count(xs, k) + (if x == k then 1 else 0) {
      CountSnoc(xs, x, k);
    }
  }

  /** A tally's dictionary counts each distinct element. */
  lemma TallyIsCountMap(counts: map<string, nat>, order: seq<string>, flat: seq<string>)
    requires Tally(counts, order, flat)
    ensures counts == CountMap(Distinct(flat), flat)
  {
    var m := CountMap(Distinct(flat), flat);
    assert counts.Keys == m.Keys;
  }

  /** Fills a dictionary with one count per key, key by key. */
  method CountPerKey(keys: seq<string>, xs: seq<string>) returns (m: map<string, nat>)
    ensures m == CountMap(keys, xs)
  {
    m := map[];
    for k := 0 to |keys|
      invariant m == CountMap(keys[..k], xs)
    {
      CountMapSnoc(keys, k, xs);
      m := m[keys[k] := Count(xs, keys[k])];
    }
    assert keys[..|keys|] == keys;
  }

  /** The total of `m` over the keys `ks`. */
  function SumAt(m: map<string, nat>, ks: seq<string>): nat
    decreases |ks|
  {
    if |ks| == 0 then 0 else (if ks[0] in m then m[ks[0]] else 0) + SumAt(m, ks[1..])
  }

  lemma {:induction false} SumAtCounts(m: map<string, nat>, ks: seq<string>, xs: seq<string>)
    requires forall k :: k in ks ==> k in m && m[k] == Count(xs, k)
    ensures SumAt(m, ks) == SumCounts(ks, xs)
    decreases |ks|
  {
    if |ks| > 0 {
      SumAtCounts(m, ks[1..], xs);
    }
  }

  /** `get_statistics` of the SQL store: the filtered total, a count for every kind, and a
      count, within the filter, for every assistant found in the whole table. */
  function StoreStatistics(records: seq<EpisodeRecord>, project: Option<string>): Statistics {
    var rs := InProject(records, project);
    Statistics(|rs|, CountMap(TypeValues, TypesOfRecords(rs)),
               CountMap(Distinct(AssistantsOfRecords(records)), AssistantsOfRecords(rs)))
  }

  /** The per-type counts add up to at most the total. */
  lemma StoreTypeCountsAtMost(records: seq<EpisodeRecord>, project: Option<string>)
    ensures SumAt(StoreStatistics(records, project).byType, TypeValues) <= StoreStatistics(records, project).total
  {
    var types := TypesOfRecords(InProject(records, project));
    TypeValuesDistinct();
    SumAtCounts(CountMap(TypeValues, types), TypeValues, types);
    SumCountsAtMost(TypeValues, types);
  }

  /** When every row has a known kind, which holds for every row the store writes itself,
      the per-type counts add up to the total. */
  lemma StoreTypeCountsSum(records: seq<EpisodeRecord>, project: Option<string>)
    requires forall r :: r in records ==> r.episodeType in TypeValues
    ensures SumAt(StoreStatistics(records, project).byType, TypeValues) == StoreStatistics(records, project).total
  {
    var rs := InProject(records, project);
    var types := TypesOfRecords(rs);
    TypeValuesDistinct();
    SumAtCounts(CountMap(TypeValues, types), TypeValues, types);
    TypesListed(rs, records);
    SumCountsAtMost(TypeValues, types);
  }

  lemma TypesListed(rs: seq<EpisodeRecord>, records: seq<EpisodeRecord>)
    requires forall r :: r in records ==> r.episodeType in TypeValues
    requires forall r :: r in rs ==> r in records
    ensures forall x :: x in TypesOfRecords(rs) ==> x in TypeValues
  {
    forall x | x in TypesOfRecords(rs) ensures x in TypeValues {
      var i :| 0 <= i < |rs| && TypesOfRecords(rs)[i] == x;
      assert rs[i] in records;
    }
  }

  /** The per-assistant counts add up to the total. */
  lemma StoreAssistantCountsSum(records: seq<EpisodeRecord>, project: Option<string>)
    ensures var s := StoreStatistics(records, project);
            SumAt(s.byAssistant, Distinct(AssistantsOfRecords(records))) == s.total
  {
    var rs := InProject(records, project);
    var all := AssistantsOfRecords(records);
    var mine := AssistantsOfRecords(rs);
    SumAtCounts(CountMap(Distinct(all), mine), Distinct(all), mine);
    forall x | x in mine ensures x in Distinct(all) {
      var i :| 0 <= i < |rs| && mine[i] == x;
      assert rs[i] in records;
      var j :| 0 <= j < |records| && records[j] == rs[i];
      assert all[j] == x;
    }
    SumCountsAtMost(Distinct(all), mine);
  }

  /** Counts the filtered rows per kind, then per assistant of the whole table. */
  method GetStatistics(records: seq<EpisodeRecord>, project: Option<string>) returns (s: Statistics)
    ensures s == StoreStatistics(records, project)
  {
    var rs := InProject(records, project);
    var byType := CountPerKey(TypeValues, TypesOfRecords(rs));
    var assistants := Distinct(AssistantsOfRecords(records));
    var byAssistant := CountPerKey(assistants, AssistantsOfRecords(rs));
    s := Statistics(|rs|, byType, byAssistant);
  }
}
