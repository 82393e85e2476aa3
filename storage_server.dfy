/** The shared backend: a vector-store server holding one collection of
    embeddings with short metadata and a second collection holding each
    episode's full metadata as a JSON document. The server's calls are
    outside the model: a listing arrives as the ids and metadata it returned,
    and reading an episode is a lookup from id to episode. */
module StorageServer {
  import opened Wrappers
  import opened Seqs
  import opened Models
  import opened Storage

  const ServerMatchReason: string := "Coincidencia semántica"

  /** Search shapes index hits exactly as the local store does, with its own match reason. */
  method SearchEpisodes(ids: seq<string>, distances: Option<seq<real>>, lookup: string -> Option<Episode>)
    returns (r: Result<seq<MemorySearchResult>, seq<string>>)
    requires distances.Some? ==> |distances.value| == |ids|
    ensures r == Hits(ids, DistancesOrZero(distances, |ids|), lookup, ServerMatchReason)
  {
    r := SearchHits(ids, distances, lookup, ServerMatchReason);
  }

  // ---------------------------------------------------------------------
  // Full metadata documents

  /** The full-metadata document of an episode, its JSON encoding taken as exact. A missing
      outcome is written as the empty string. */
  datatype FullMetadata = FullMetadata(
    id: string,
    timestamp: int,
    task: string,
    context: string,
    trace: ReasoningTrace,
    solution: string,
    solutionSummary: string,
    outcome: string,
    success: bool,
    episodeType: string,
    tags: seq<string>,
    filesAffected: seq<string>,
    lessons: seq<string>,
    sourceAssistant: string,
    projectName: string)

  function FullMetadataOf(e: Episode): (m: FullMetadata)
    ensures m.id == e.id && ParseType(m.episodeType) == Some(e.episodeType)
  {
    ParseTypeValue(e.episodeType);
    FullMetadata(e.id, e.timestamp, e.task, e.context, e.trace, e.solution, e.solutionSummary,
                 e.outcome.GetOr(""), e.success, TypeValue(e.episodeType), e.tags, e.filesAffected,
                 e.lessons, e.sourceAssistant, e.projectName)
  }

  /** The episode a document loads as; an unknown kind fails to load. */
  function MetadataToEpisode(m: FullMetadata): (e: Option<Episode>)
    ensures e.Some? <==> ParseType(m.episodeType).Some?
    ensures e.Some? ==> e.value.HasDefaultUsage() && e.value.id == m.id && e.value.outcome == Some(m.outcome)
  {
    match ParseType(m.episodeType)
    case None => None
    case Some(t) =>
      Some(NewEpisode(m.id, m.timestamp, m.task, m.context, m.trace, m.solution, m.solutionSummary, t,
                      m.tags, m.filesAffected, m.lessons, m.sourceAssistant, m.projectName)
           .(outcome := Some(m.outcome), success := m.success))
  }

  /** Writing and reading a document gives the episode back with its usage fields and flags
      reset, and with a missing outcome turned into the empty string. */
  lemma MetadataRoundTrip(e: Episode)
    ensures MetadataToEpisode(FullMetadataOf(e)) == Some(WithDefaultUsage(e).(outcome := Some(e.outcome.GetOr(""))))
    ensures e.HasDefaultUsage() && e.outcome.Some? ==> MetadataToEpisode(FullMetadataOf(e)) == Some(e)
  {
    ParseTypeValue(e.episodeType);
  }

  /** `get_episode_by_id`: nothing when the server returns no document or an empty one, or
      when the document does not parse; otherwise the episode it encodes. */
  function EpisodeFromDocuments(documents: seq<string>, parse: string -> Option<FullMetadata>): (e: Option<Episode>)
    ensures |documents| == 0 ==> e.None?
    ensures e.Some? ==> documents[0] != "" && parse(documents[0]).Some? &&
                        e == MetadataToEpisode(parse(documents[0]).value)
  {
    if |documents| == 0 || documents[0] == "" then None
    else match parse(documents[0])
      case None => None
      case Some(m) => MetadataToEpisode(m)
  }

  // ---------------------------------------------------------------------
  // Timeline

  /** No episode is newer than one listed before it. */
  predicate NewestFirst(es: seq<Episode>) {
    forall i, j :: 0 <= i < j < |es| ==> es[i].timestamp >= es[j].timestamp
  }

  lemma NewestFirstCons(a: Episode, rest: seq<Episode>)
    requires NewestFirst(rest)
    requires forall x :: x in rest ==> x.timestamp <= a.timestamp
    ensures NewestFirst([a] + rest)
  {
    var r := [a] + rest;
    forall i, j | 0 <= i < j < |r| ensures r[i].timestamp >= r[j].timestamp {
      assert r[j] == rest[j - 1];
      if i > 0 {
        assert r[i] == rest[i - 1];
      } else {
        assert rest[j - 1] in rest;
      }
    }
  }

  /** In a newest-first list no episode is newer than the first. */
  lemma NoneNewerThanHead(es: seq<Episode>, t: int)
    requires NewestFirst(es)
    requires |es| == 0 || es[0].timestamp <= t
    ensures forall x :: x in es ==> x.timestamp <= t
  {
    forall x | x in es ensures x.timestamp <= t {
      var j :| 0 <= j < |es| && es[j] == x;
    }
  }

  /** Adding one episode no newer than `t` to episodes no newer than `t` keeps that bound. */
  lemma NoneNewerAfterAdding(xs: seq<Episode>, e: Episode, r: seq<Episode>, t: int)
    requires multiset(r) == multiset(xs) + multiset{e}
    requires e.timestamp <= t
    requires forall x :: x in xs ==> x.timestamp <= t
    ensures forall x :: x in r ==> x.timestamp <= t
  {
    forall x | x in r ensures x.timestamp <= t {
      assert x in multiset(r);
      if x != e {
        assert x in multiset(xs);
      }
    }
  }

  /** Puts `e` before the first episode that is not newer than it. */
  function InsertByTime(e: Episode, es: seq<Episode>): (r: seq<Episode>)
    requires NewestFirst(es)
    ensures NewestFirst(r)
    ensures multiset(r) == multiset(es) + multiset{e}
    ensures |r| == |es| + 1
    decreases |es|
  {
    if |es| == 0 || es[0].timestamp <= e.timestamp then
      NoneNewerThanHead(es, e.timestamp);
      NewestFirstCons(e, es);
      [e] + es
    else
      var tail := es[1..];
      assert es == [es[0]] + tail;
      var rest := InsertByTime(e, tail);
      NoneNewerThanHead(es, es[0].timestamp);
      NoneNewerAfterAdding(tail, e, rest, es[0].timestamp);
      NewestFirstCons(es[0], rest);
      [es[0]] + rest
  }

  /** `sort(key=timestamp, reverse=True)`: newest first, equal timestamps in input order. */
  function SortNewestFirst(es: seq<Episode>): (r: seq<Episode>)
    ensures NewestFirst(r)
    ensures multiset(r) == multiset(es)
    ensures |r| == |es|
    decreases |es|
  {
    if |es| == 0 then []
    else
      assert es == [es[0]] + es[1..];
      InsertByTime(es[0], SortNewestFirst(es[1..]))
  }

  /** The stored episodes of `ids`, in order, skipping ids that have none. */
  function Fetched(ids: seq<string>, lookup: string -> Option<Episode>): (es: seq<Episode>)
    ensures |es| <= |ids|
    ensures forall e :: e in es ==> exists i :: 0 <= i < |ids| && lookup(ids[i]) == Some(e)
    decreases |ids|
  {
    if |ids| == 0 then []
    else
      var n := |ids| - 1;
      var p := Fetched(ids[..n], lookup);
      assert forall e :: e in p ==> exists i :: 0 <= i < |ids| && lookup(ids[i]) == Some(e) by {
        forall e | e in p ensures exists i :: 0 <= i < |ids| && lookup(ids[i]) == Some(e) {
          var i :| 0 <= i < n && lookup(ids[..n][i]) == Some(e);
          assert ids[..n][i] == ids[i];
        }
      }
      p + (match lookup(ids[n]) case Some(e) => [e] case None => [])
  }

  /** The timeline: the first `limit` listed ids, their stored episodes newest first. */
  function Timeline(ids: seq<string>, limit: nat, lookup: string -> Option<Episode>): seq<Episode> {
    Take(SortNewestFirst(Fetched(Take(ids, limit), lookup)), limit)
  }

  /** The timeline has at most `limit` entries, newest first, and holds exactly the stored
      episodes of the first `limit` ids: the listing is cut before sorting, not after. */
  lemma TimelineShape(ids: seq<string>, limit: nat, lookup: string -> Option<Episode>)
    ensures var t := Timeline(ids, limit, lookup);
            |t| <= limit && NewestFirst(t) &&
            multiset(t) == multiset(Fetched(Take(ids, limit), lookup)) &&
            forall e :: e in t ==> exists i :: 0 <= i < |ids| && i < limit && lookup(ids[i]) == Some(e)
  {
    var fetched := Fetched(Take(ids, limit), lookup);
    var sorted := SortNewestFirst(fetched);
    assert Take(sorted, limit) == sorted;
    forall e | e in sorted ensures exists i :: 0 <= i < |ids| && i < limit && lookup(ids[i]) == Some(e) {
      assert e in multiset(sorted);
      FetchedFirstSound(ids, limit, lookup, e);
    }
  }

  /** An episode fetched for the first `limit` ids is stored under one of them. */
  lemma FetchedFirstSound(ids: seq<string>, limit: nat, lookup: string -> Option<Episode>, e: Episode)
    requires e in Fetched(Take(ids, limit), lookup)
    ensures exists i :: 0 <= i < |ids| && i < limit && lookup(ids[i]) == Some(e)
  {
    var first := Take(ids, limit);
    var i :| 0 <= i < |first| && lookup(first[i]) == Some(e);
    assert first[i] == ids[i];
  }

  lemma FetchedSnoc(ids: seq<string>, k: int, lookup: string -> Option<Episode>)
    requires 0 <= k < |ids|
    ensures Fetched(ids[..k + 1], lookup) ==
            Fetched(ids[..k], lookup) + (match lookup(ids[k]) case Some(e) => [e] case None => [])
  {
    assert ids[..k + 1][..k] == ids[..k];
  }

  /** `get_timeline`: fetches the episodes of the first `limit` listed ids, sorts them newest
      first and keeps `limit` of them. */
  method GetTimeline(ids: seq<string>, limit: nat, lookup: string -> Option<Episode>) returns (episodes: seq<Episode>)
    ensures episodes == Timeline(ids, limit, lookup)
  {
    var first := Take(ids, limit);
    episodes := [];
    for i := 0 to |first|
      invariant episodes == Fetched(first[..i], lookup)
    {
      FetchedSnoc(first, i, lookup);
      var episode := lookup(first[i]);
      if episode.Some? {
        episodes := episodes + [episode.value];
      }
    }
    assert first[..|first|] == first;
    episodes := Take(SortNewestFirst(episodes), limit);
  }

  // ---------------------------------------------------------------------
  // Lessons

  const LessonsTimelineLimit: nat := 500

  function EpisodeSource(e: Episode): LessonSource {
    LessonSource(e.id, e.task, e.timestamp, e.tags, e.lessons)
  }

  function EpisodeSources(es: seq<Episode>): (r: seq<LessonSource>)
    ensures |r| == |es|
    ensures forall i :: 0 <= i < |es| ==> r[i] == EpisodeSource(es[i])
  {
    seq(|es|, i requires 0 <= i < |es| => EpisodeSource(es[i]))
  }

  /** `get_lessons_learned`: the lessons of the 500-entry timeline, through the tag filter. */
  method GetLessons(ids: seq<string>, lookup: string -> Option<Episode>, tags: seq<string>) returns (lessons: seq<Dict>)
    ensures lessons == Lessons(EpisodeSources(Timeline(ids, LessonsTimelineLimit, lookup)), tags)
  {
    var episodes := GetTimeline(ids, LessonsTimelineLimit, lookup);
    lessons := CollectLessons(EpisodeSources(episodes), tags);
  }

  // ---------------------------------------------------------------------
  // Statistics

  /** The short metadata of an embedding, as far as the statistics read it. */
  datatype Meta = Meta(episodeType: Option<string>, sourceAssistant: Option<string>)

  function TypesOf(metas: seq<Meta>): (r: seq<string>)
    ensures |r| == |metas|
    decreases |metas|
  {
    if |metas| == 0 then [] else TypesOf(metas[..|metas| - 1]) + [metas[|metas| - 1].episodeType.GetOr("feature")]
  }

  function AssistantsOf(metas: seq<Meta>): (r: seq<string>)
    ensures |r| == |metas|
    decreases |metas|
  {
    if |metas| == 0 then [] else AssistantsOf(metas[..|metas| - 1]) + [metas[|metas| - 1].sourceAssistant.GetOr("unknown")]
  }

  /** `get_statistics` of the server: the number of ids, a count for every kind (a missing
      type reads as "feature", an unknown one is not counted) and a count per assistant (a
      missing one reads as "unknown"). */
  function ServerStatistics(ids: seq<string>, metas: seq<Meta>): Statistics {
    Statistics(|ids|, CountMap(TypeValues, TypesOf(metas)), CountMap(Distinct(AssistantsOf(metas)), AssistantsOf(metas)))
  }

  /** The per-type counts add up to at most the number of metadata records, and the
      per-assistant counts to exactly that number. */
  lemma ServerStatisticsSums(ids: seq<string>, metas: seq<Meta>)
    ensures SumAt(ServerStatistics(ids, metas).byType, TypeValues) <= |metas|
    ensures SumAt(ServerStatistics(ids, metas).byAssistant, Distinct(AssistantsOf(metas))) == |metas|
  {
    var types := TypesOf(metas);
    var assistants := AssistantsOf(metas);
    TypeValuesDistinct();
    SumAtCounts(CountMap(TypeValues, types), TypeValues, types);
    SumCountsAtMost(TypeValues, types);
    SumAtCounts(CountMap(Distinct(assistants), assistants), Distinct(assistants), assistants);
    SumCountsOverDistinct(assistants);
  }

  lemma MetasSnoc(metas: seq<Meta>, i: int)
    requires 0 <= i < |metas|
    ensures TypesOf(metas[..i + 1]) == TypesOf(metas[..i]) + [metas[i].episodeType.GetOr("feature")]
    ensures AssistantsOf(metas[..i + 1]) == AssistantsOf(metas[..i]) + [metas[i].sourceAssistant.GetOr("unknown")]
  {
    assert metas[..i + 1][..i] == metas[..i];
  }

  /** Starts every kind at zero and walks the metadata once, bumping the kind's counter when
      the kind is known and the assistant's counter always. */
  method GetStatistics(ids: seq<string>, metas: seq<Meta>) returns (s: Statistics)
    ensures s == ServerStatistics(ids, metas)
  {
    var byType: map<string, nat> := map t | t in TypeValues :: 0;
    var byAssistant: map<string, nat> := map[];
    ghost var order: seq<string> := [];
    assert CountsKeys(byType, TypeValues, []);
    assert metas[..0] == [];
    for i := 0 to |metas|
      invariant CountsKeys(byType, TypeValues, TypesOf(metas[..i]))
      invariant Tally(byAssistant, order, AssistantsOf(metas[..i]))
    {
      MetasSnoc(metas, i);
      byType := BumpType(byType, TypesOf(metas[..i]), metas[i].episodeType.GetOr("feature"));
      byAssistant, order := BumpAssistant(byAssistant, order, AssistantsOf(metas[..i]),
                                          metas[i].sourceAssistant.GetOr("unknown"));
    }
    assert metas[..|metas|] == metas;
    CountsKeysIsCountMap(byType, TypeValues, TypesOf(metas));
    TallyIsCountMap(byAssistant, order, AssistantsOf(metas));
    s := Statistics(|ids|, byType, byAssistant);
  }

  /** `if t in type_counts: type_counts[t] += 1` */
  method BumpType(counts: map<string, nat>, ghost seen: seq<string>, t: string) returns (next: map<string, nat>)
    requires CountsKeys(counts, TypeValues, seen)
    ensures CountsKeys(next, TypeValues, seen + [t])
  {
    CountsKeysSnoc(counts, TypeValues, seen, t);
    next := counts;
    if t in counts {
      next := counts[t := counts[t] + 1];
    }
  }

  /** `assistant_counts[a] = assistant_counts.get(a, 0) + 1` */
  method BumpAssistant(counts: map<string, nat>, ghost order: seq<string>, ghost seen: seq<string>, a: string)
    returns (next: map<string, nat>, ghost nextOrder: seq<string>)
    requires Tally(counts, order, seen)
    ensures Tally(next, nextOrder, seen + [a])
  {
    TallySnoc(counts, order, seen, a);
    if a in counts {
      next, nextOrder := counts[a := counts[a] + 1], order;
    } else {
      next, nextOrder := counts[a := 1], order + [a];
    }
  }
}
