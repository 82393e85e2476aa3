/** Consolidation of a project's episodes into meta-memories: cluster
    labels (produced by density clustering, taken here as an input where -1
    marks noise) group the embedded episode ids; each large enough group is
    synthesised by the language model into one meta-memory, which is stored.
    The model's reply, the JSON decoder, identifier generation and the clock
    are parameters. */
module Consolidation {
  import opened Wrappers
  import opened Text
  import opened Seqs
  import opened Models

  const Noise: int := -1
  const DefaultMinClusterSize: int := 3
  const MaxConfidence: real := 0.95
  const UnknownPattern: string := "Patrón no identificado"
  const DefaultCoherence: real := 0.5

  // ---------------------------------------------------------------------
  // Grouping ids by cluster label

  /** The labels that are not noise, in order. */
  function NonNoise(labels: seq<int>): (r: seq<int>)
    ensures forall l :: l in r <==> l in labels && l != Noise
    decreases |labels|
  {
    if |labels| == 0 then []
    else
      var n := |labels| - 1;
      assert forall l :: l in labels <==> l in labels[..n] || l == labels[n];
      NonNoise(labels[..n]) + (if labels[n] == Noise then [] else [labels[n]])
  }

  /** The ids whose label is `l`, in input order. */
  function Members(labels: seq<int>, ids: seq<string>, l: int): (r: seq<string>)
    requires |labels| == |ids|
    ensures l !in labels ==> r == []
    ensures |r| == Count(labels, l)
    ensures forall x :: x in r ==> exists i :: 0 <= i < |ids| && ids[i] == x && labels[i] == l
    decreases |labels|
  {
    if |labels| == 0 then []
    else
      var n := |labels| - 1;
      var p := Members(labels[..n], ids[..n], l);
      assert forall x :: x in p ==> exists i :: 0 <= i < |ids| && ids[i] == x && labels[i] == l by {
        forall x | x in p ensures exists i :: 0 <= i < |ids| && ids[i] == x && labels[i] == l {
          var i :| 0 <= i < |ids[..n]| && ids[..n][i] == x && labels[..n][i] == l;
          assert ids[i] == x && labels[i] == l;
        }
      }
      p + (if labels[n] == l then [ids[n]] else [])
  }

  /** Each id whose label is not noise appears in the group of its label. */
  lemma {:induction false} MemberOfOwnLabel(labels: seq<int>, ids: seq<string>, i: int)
    requires |labels| == |ids| && 0 <= i < |labels|
    ensures ids[i] in Members(labels, ids, labels[i])
    decreases |labels|
  {
    var n := |labels| - 1;
    if i < n {
      MemberOfOwnLabel(labels[..n], ids[..n], i);
    }
  }

  /** Non-noise labels in order of first appearance: the order of the groups. */
  function ClusterOrder(labels: seq<int>): seq<int> {
    Distinct(NonNoise(labels))
  }

  /** The groups for labels `ks`, in that order. */
  function MemberLists(labels: seq<int>, ids: seq<string>, ks: seq<int>): (r: seq<seq<string>>)
    requires |labels| == |ids|
    ensures |r| == |ks|
    ensures forall k :: 0 <= k < |ks| ==> r[k] == Members(labels, ids, ks[k])
    decreases |ks|
  {
    if |ks| == 0 then [] else [Members(labels, ids, ks[0])] + MemberLists(labels, ids, ks[1..])
  }

  /** The groups produced for a labelling: one per non-noise label, in first-seen order. */
  function Clusters(labels: seq<int>, ids: seq<string>): seq<seq<string>>
    requires |labels| == |ids|
  {
    MemberLists(labels, ids, ClusterOrder(labels))
  }

  function TotalSize(groups: seq<seq<string>>): nat
    decreases |groups|
  {
    if |groups| == 0 then 0 else |groups[0]| + TotalSize(groups[1..])
  }

  lemma {:induction false} CountNonNoise(labels: seq<int>, l: int)
    requires l != Noise
    ensures Count(NonNoise(labels), l) == Count(labels, l)
    decreases |labels|
  {
    if |labels| > 0 {
      var n := |labels| - 1;
      var pre := labels[..n];
      CountNonNoise(pre, l);
      assert labels == pre + [labels[n]];
      CountSnoc(pre, labels[n], l);
      if labels[n] != Noise {
        assert NonNoise(labels) == NonNoise(pre) + [labels[n]];
        CountSnoc(NonNoise(pre), labels[n], l);
      } else {
        assert NonNoise(labels) == NonNoise(pre);
      }
    }
  }

  lemma {:induction false} TotalSizeIsSumCounts(labels: seq<int>, ids: seq<string>, ks: seq<int>)
    requires |labels| == |ids| && Noise !in ks
    ensures TotalSize(MemberLists(labels, ids, ks)) == SumCounts(ks, NonNoise(labels))
    decreases |ks|
  {
    if |ks| > 0 {
      CountNonNoise(labels, ks[0]);
      TotalSizeIsSumCounts(labels, ids, ks[1..]);
      assert MemberLists(labels, ids, ks)[1..] == MemberLists(labels, ids, ks[1..]);
    }
  }

  /** Noise is dropped, every group carries a distinct label, and the group sizes add up
      to the number of non-noise ids: each of them lands in exactly one group. */
  lemma ClustersPartition(labels: seq<int>, ids: seq<string>)
    requires |labels| == |ids|
    ensures Noise !in ClusterOrder(labels) && NoDuplicates(ClusterOrder(labels))
    ensures forall l :: l in ClusterOrder(labels) <==> l in labels && l != Noise
    ensures TotalSize(Clusters(labels, ids)) == |NonNoise(labels)|
    ensures forall i :: 0 <= i < |labels| && labels[i] != Noise ==>
              exists k :: 0 <= k < |ClusterOrder(labels)| && ClusterOrder(labels)[k] == labels[i] &&
                          ids[i] in Clusters(labels, ids)[k]
  {
    TotalSizeIsSumCounts(labels, ids, ClusterOrder(labels));
    SumCountsOverDistinct(NonNoise(labels));
    forall i | 0 <= i < |labels| && labels[i] != Noise
      ensures exists k :: 0 <= k < |ClusterOrder(labels)| && ClusterOrder(labels)[k] == labels[i] &&
                          ids[i] in Clusters(labels, ids)[k]
    {
      assert labels[i] in ClusterOrder(labels);
      var k :| 0 <= k < |ClusterOrder(labels)| && ClusterOrder(labels)[k] == labels[i];
      MemberOfOwnLabel(labels, ids, i);
    }
  }

  lemma ClusterOrderSnoc(labels: seq<int>, i: int)
    requires 0 <= i < |labels|
    ensures ClusterOrder(labels[..i + 1]) ==
      if labels[i] == Noise || labels[i] in ClusterOrder(labels[..i]) then ClusterOrder(labels[..i])
      else ClusterOrder(labels[..i]) + [labels[i]]
  {
    assert labels[..i + 1][..i] == labels[..i];
    var nn := NonNoise(labels[..i]);
    if labels[i] != Noise {
      assert NonNoise(labels[..i + 1]) == nn + [labels[i]];
      DistinctSnoc(nn, labels[i]);
    } else {
      assert NonNoise(labels[..i + 1]) == nn;
    }
  }

  lemma MembersSnoc(labels: seq<int>, ids: seq<string>, i: int, l: int)
    requires |labels| == |ids| && 0 <= i < |labels|
    ensures Members(labels[..i + 1], ids[..i + 1], l) ==
            Members(labels[..i], ids[..i], l) + (if labels[i] == l then [ids[i]] else [])
  {
    assert labels[..i + 1][..i] == labels[..i] && ids[..i + 1][..i] == ids[..i];
  }

  /** The label dictionary after the first `i` labels: its keys are the non-noise labels seen
      so far, in first-seen order, each mapped to its ids so far. */
  ghost predicate GroupedUpTo(groups: map<int, seq<string>>, order: seq<int>, labels: seq<int>, ids: seq<string>, i: int)
    requires |labels| == |ids| && 0 <= i <= |labels|
  {
    order == ClusterOrder(labels[..i]) &&
    (forall l :: l in groups <==> l in order) &&
    (forall l :: l in groups ==> groups[l] == Members(labels[..i], ids[..i], l))
  }

  /** One step of the dictionary loop: a noise label leaves the dictionary alone; any other
      label gets a fresh empty list if it is new, then the id appended to its list. */
  lemma GroupStep(
    before: map<int, seq<string>>, order: seq<int>, mid: map<int, seq<string>>, midOrder: seq<int>,
    after: map<int, seq<string>>, labels: seq<int>, ids: seq<string>, i: int)
    requires |labels| == |ids| && 0 <= i < |labels|
    requires GroupedUpTo(before, order, labels, ids, i)
    requires labels[i] == Noise ==> after == before && midOrder == order
    requires labels[i] != Noise ==>
               (if labels[i] in before then mid == before && midOrder == order
                else mid == before[labels[i] := []] && midOrder == order + [labels[i]]) &&
               labels[i] in mid && after == mid[labels[i] := mid[labels[i]] + [ids[i]]]
    ensures GroupedUpTo(after, midOrder, labels, ids, i + 1)
  {
    var lab := labels[i];
    assert lab in before <==> lab in order;
    GroupStepOrder(labels, i, order, midOrder);
    GroupStepKeys(before, order, mid, midOrder, after, lab, lab != Noise, ids[i]);
    assert Noise !in order;
    if lab !in before {
      assert lab !in order;
    }
    GroupStepValues(before, mid, after, labels, ids, i);
  }

  /** Every list after a step holds its label's ids up to and including step `i`. */
  lemma GroupStepValues(
    before: map<int, seq<string>>, mid: map<int, seq<string>>, after: map<int, seq<string>>,
    labels: seq<int>, ids: seq<string>, i: int)
    requires |labels| == |ids| && 0 <= i < |labels|
    requires forall l :: l in before ==> before[l] == Members(labels[..i], ids[..i], l)
    requires Noise !in before
    requires labels[i] !in before ==> labels[i] !in labels[..i] || labels[i] == Noise
    requires labels[i] == Noise ==> after == before
    requires labels[i] != Noise ==>
               (if labels[i] in before then mid == before else mid == before[labels[i] := []]) &&
               labels[i] in mid && after == mid[labels[i] := mid[labels[i]] + [ids[i]]]
    ensures forall l :: l in after ==> after[l] == Members(labels[..i + 1], ids[..i + 1], l)
  {
    forall l | l in after ensures after[l] == Members(labels[..i + 1], ids[..i + 1], l) {
      GroupStepValue(before, mid, after, labels, ids, i, l);
    }
  }

  /** The key order after a step: a new non-noise label joins at the end. */
  lemma GroupStepOrder(labels: seq<int>, i: int, order: seq<int>, midOrder: seq<int>)
    requires 0 <= i < |labels| && order == ClusterOrder(labels[..i])
    requires labels[i] == Noise || labels[i] in order ==> midOrder == order
    requires labels[i] != Noise && labels[i] !in order ==> midOrder == order + [labels[i]]
    ensures midOrder == ClusterOrder(labels[..i + 1])
  {
    ClusterOrderSnoc(labels, i);
  }

  /** The keys after a step are the key order after it. */
  lemma GroupStepKeys(
    before: map<int, seq<string>>, order: seq<int>, mid: map<int, seq<string>>, midOrder: seq<int>,
    after: map<int, seq<string>>, lab: int, grouped: bool, id: string)
    requires forall l :: l in before <==> l in order
    requires !grouped ==> after == before && midOrder == order
    requires grouped ==>
               (if lab in before then mid == before && midOrder == order
                else mid == before[lab := []] && midOrder == order + [lab]) &&
               lab in mid && after == mid[lab := mid[lab] + [id]]
    ensures forall l :: l in after <==> l in midOrder
  {
  }

  /** The list of one label after a step: the label's ids up to and including step `i`. */
  lemma GroupStepValue(
    before: map<int, seq<string>>, mid: map<int, seq<string>>, after: map<int, seq<string>>,
    labels: seq<int>, ids: seq<string>, i: int, l: int)
    requires |labels| == |ids| && 0 <= i < |labels|
    requires l in before ==> before[l] == Members(labels[..i], ids[..i], l)
    requires l !in before && l in after ==> l !in labels[..i]
    requires labels[i] == Noise ==> after == before
    requires labels[i] != Noise ==>
               (if labels[i] in before then mid == before else mid == before[labels[i] := []]) &&
               labels[i] in mid && after == mid[labels[i] := mid[labels[i]] + [ids[i]]]
    requires l in after && l != Noise
    ensures after[l] == Members(labels[..i + 1], ids[..i + 1], l)
  {
    MembersSnoc(labels, ids, i, l);
    if l != labels[i] {
      assert after[l] == before[l];
    } else if l !in before {
      assert Members(labels[..i], ids[..i], l) == [];
    }
  }

  /** The label dictionary: for each non-noise label, in first-seen order, its ids. */
  method GroupByLabel(labels: seq<int>, ids: seq<string>) returns (groups: map<int, seq<string>>, order: seq<int>)
    requires |labels| == |ids|
    ensures order == ClusterOrder(labels)
    ensures forall l :: l in groups <==> l in order
    ensures forall l :: l in groups ==> groups[l] == Members(labels, ids, l)
  {
    groups := map[];
    order := [];
    for i := 0 to |labels|
      invariant GroupedUpTo(groups, order, labels, ids, i)
    {
      var lab := labels[i];
      ghost var before, orderBefore := groups, order;
      ghost var mid := groups;
      if lab != Noise {
        if lab !in groups {
          groups := groups[lab := []];
          order := order + [lab];
        }
        mid := groups;
        groups := groups[lab := groups[lab] + [ids[i]]];
      }
      GroupStep(before, orderBefore, mid, order, groups, labels, ids, i);
    }
    assert labels[..|labels|] == labels && ids[..|ids|] == ids;
  }

  /** Groups the ids by label, skipping noise; the groups come out in first-seen order. */
  method ClusterEpisodes(labels: seq<int>, ids: seq<string>) returns (clusters: seq<seq<string>>)
    requires |labels| == |ids|
    ensures clusters == Clusters(labels, ids)
  {
    var groups, order := GroupByLabel(labels, ids);
    forall k | 0 <= k < |order| ensures order[k] in groups {
      assert order[k] in order;
    }
    clusters := seq(|order|, k requires 0 <= k < |order| => groups[order[k]]);
  }

  // ---------------------------------------------------------------------
  // Common tags

  /** Every tag occurrence over the episodes, episode by episode. */
  function AllTags(episodes: seq<Episode>): seq<string>
    decreases |episodes|
  {
    if |episodes| == 0 then [] else AllTags(episodes[..|episodes| - 1]) + episodes[|episodes| - 1].tags
  }

  /** The keys occurring in at least half of `n` (twice the count reaches `n`). */
  function KeepCommon(keys: seq<string>, flat: seq<string>, n: nat): (r: seq<string>)
    ensures forall t :: t in r <==> t in keys && 2 * Count(flat, t) >= n
    ensures NoDuplicates(keys) ==> NoDuplicates(r)
    decreases |keys|
  {
    if |keys| == 0 then []
    else
      var m := |keys| - 1;
      assert forall t :: t in keys <==> t in keys[..m] || t == keys[m];
      KeepCommon(keys[..m], flat, n) + (if 2 * Count(flat, keys[m]) >= n then [keys[m]] else [])
  }

  lemma KeepCommonSnoc(keys: seq<string>, k: int, flat: seq<string>, n: nat)
    requires 0 <= k < |keys|
    ensures KeepCommon(keys[..k + 1], flat, n) ==
            KeepCommon(keys[..k], flat, n) + (if 2 * Count(flat, keys[k]) >= n then [keys[k]] else [])
  {
    assert keys[..k + 1][..k] == keys[..k];
  }

  /** Tags whose occurrences number at least half the episodes, in first-seen order. */
  function CommonTags(episodes: seq<Episode>): (r: seq<string>)
    ensures NoDuplicates(r)
    ensures forall t :: t in r <==> |episodes| > 0 && 2 * Count(AllTags(episodes), t) >= |episodes|
  {
    if |episodes| == 0 then [] else KeepCommon(Distinct(AllTags(episodes)), AllTags(episodes), |episodes|)
  }

  lemma {:induction false} CountAllTagsAtLeast(episodes: seq<Episode>, t: string)
    requires forall e :: e in episodes ==> t in e.tags
    ensures Count(AllTags(episodes), t) >= |episodes|
    decreases |episodes|
  {
    if |episodes| > 0 {
      var n := |episodes| - 1;
      assert forall e :: e in episodes[..n] ==> e in episodes;
      CountAllTagsAtLeast(episodes[..n], t);
      CountAppend(AllTags(episodes[..n]), episodes[n].tags, t);
    }
  }

  /** A tag carried by every episode of a non-empty cluster is a common tag. */
  lemma SharedTagIsCommon(episodes: seq<Episode>, t: string)
    requires |episodes| > 0
    requires forall e :: e in episodes ==> t in e.tags
    ensures t in CommonTags(episodes)
  {
    CountAllTagsAtLeast(episodes, t);
  }

  /** The tag-count dictionary over all tag occurrences, keys in first-seen order. */
  method CountTags(episodes: seq<Episode>) returns (counts: map<string, nat>, order: seq<string>)
    ensures Tally(counts, order, AllTags(episodes))
  {
    counts := map[];
    order := [];
    for i := 0 to |episodes|
      invariant Tally(counts, order, AllTags(episodes[..i]))
    {
      var tags := episodes[i].tags;
      ghost var seen := AllTags(episodes[..i]);
      assert seen + tags[..0] == seen;
      for j := 0 to |tags|
        invariant Tally(counts, order, seen + tags[..j])
      {
        var tag := tags[j];
        assert seen + tags[..j + 1] == (seen + tags[..j]) + [tag];
        TallySnoc(counts, order, seen + tags[..j], tag);
        if tag in counts {
          counts := counts[tag := counts[tag] + 1];
        } else {
          counts := counts[tag := 1];
          order := order + [tag];
        }
      }
      assert episodes[..i + 1][..i] == episodes[..i];
      assert tags[..|tags|] == tags;
    }
    assert episodes[..|episodes|] == episodes;
  }

  /** Counts tag occurrences, then keeps the tags counted at least half as often as there
      are episodes. */
  method ExtractCommonTags(episodes: seq<Episode>) returns (common: seq<string>)
    ensures common == CommonTags(episodes)
  {
    if |episodes| == 0 {
      return [];
    }
    var counts, order := CountTags(episodes);
    common := [];
    ghost var flat := AllTags(episodes);
    for k := 0 to |order|
      invariant common == KeepCommon(order[..k], flat, |episodes|)
    {
      KeepCommonSnoc(order, k, flat, |episodes|);
      if 2 * counts[order[k]] >= |episodes| {
        common := common + [order[k]];
      }
    }
    assert order[..|order|] == order;
  }

  // ---------------------------------------------------------------------
  // Synthesis of one cluster

  /** Confidence grows by 0.1 per episode from 0.5, capped at 0.95. */
  function Confidence(n: nat): (c: real)
    ensures 0.5 <= c <= MaxConfidence
    ensures n >= 5 ==> c == MaxConfidence
    ensures n < 5 ==> c < MaxConfidence
  {
    var raw := 0.5 + n as real * 0.1;
    if MaxConfidence <= raw then MaxConfidence else raw
  }

  lemma ConfidenceMonotone(m: nat, n: nat)
    requires m <= n
    ensures Confidence(m) <= Confidence(n)
  {
  }

  const JsonFence: string := "```json"
  const Fence: string := "```"

  /** The reply with surrounding whitespace, a leading "```json" and/or "```" and a
      trailing "```" removed, then stripped again. */
  function Unfence(reply: string): string {
    var t0 := Strip(reply);
    var t1 := if StartsWith(t0, JsonFence) then t0[|JsonFence|..] else t0;
    var t2 := if StartsWith(t1, Fence) then t1[|Fence|..] else t1;
    var t3 := if EndsWith(t2, Fence) then t2[..|t2| - |Fence|] else t2;
    Strip(t3)
  }

  /** Removes Markdown code fences from the model's reply, step by step. */
  method StripFences(reply: string) returns (text: string)
    ensures text == Unfence(reply)
  {
    text := Strip(reply);
    if StartsWith(text, JsonFence) {
      text := text[7..];
    }
    if StartsWith(text, Fence) {
      text := text[3..];
    }
    if EndsWith(text, Fence) {
      text := text[..|text| - 3];
    }
    text := Strip(text);
  }

  lemma StrippedFenced(s: string)
    requires |s| > 0 && s[0] == '`' && s[|s| - 1] == '`'
    ensures Strip(s) == s
  {
    StripPadded([], s, []);
    assert [] + s + [] == s;
  }

  /** A JSON body in a "```json" block comes back exactly. */
  lemma UnfenceJsonBlock(body: string)
    requires IsStripped(body)
    ensures Unfence(JsonFence + "\n" + body + "\n" + Fence) == body
  {
    var s := JsonFence + "\n" + body + "\n" + Fence;
    StrippedFenced(s);
    assert StartsWith(s, JsonFence);
    var t1 := s[7..];
    assert t1 == "\n" + body + "\n" + Fence;
    assert !StartsWith(t1, Fence) by {
      assert t1[0] == '\n';
    }
    assert EndsWith(t1, Fence);
    var t3 := t1[..|t1| - 3];
    assert t3 == "\n" + body + "\n";
    StripPadded("\n", body, "\n");
  }

  /** A body in a bare "```" block comes back exactly. */
  lemma UnfencePlainBlock(body: string)
    requires IsStripped(body)
    ensures Unfence(Fence + "\n" + body + "\n" + Fence) == body
  {
    var s := Fence + "\n" + body + "\n" + Fence;
    StrippedFenced(s);
    assert !StartsWith(s, JsonFence) by {
      assert s[3] == '\n';
    }
    assert StartsWith(s, Fence);
    var t2 := s[3..];
    assert t2 == "\n" + body + "\n" + Fence;
    assert EndsWith(t2, Fence);
    var t3 := t2[..|t2| - 3];
    assert t3 == "\n" + body + "\n";
    StripPadded("\n", body, "\n");
  }

  /** Text without fences is only stripped. */
  lemma UnfenceBare(reply: string)
    requires !StartsWith(Strip(reply), Fence) && !EndsWith(Strip(reply), Fence)
    ensures Unfence(reply) == Strip(reply)
  {
    StripIdempotent(reply);
  }

  /** The fields the decoded reply may carry; an absent field takes its default. */
  datatype SynthesisData = SynthesisData(
    pattern: Option<string>,
    patternSummary: Option<string>,
    lessons: Option<seq<string>>,
    bestPractices: Option<seq<string>>,
    antipatterns: Option<seq<string>>,
    exceptions: Option<seq<string>>,
    edgeCases: Option<seq<string>>,
    contexts: Option<seq<string>>,
    technologies: Option<seq<string>>,
    coherence: Option<real>)

  function EpisodeIds(episodes: seq<Episode>): (ids: seq<string>)
    ensures |ids| == |episodes|
    ensures forall i :: 0 <= i < |episodes| ==> ids[i] == episodes[i].id
  {
    seq(|episodes|, i requires 0 <= i < |episodes| => episodes[i].id)
  }

  /** The meta-memory assembled from the decoded reply and the cluster. */
  function Draft(d: SynthesisData, episodes: seq<Episode>, project: string, id: string, now: int): MetaMemory {
    MetaMemory(
      id, now, now,
      d.pattern.GetOr(UnknownPattern), d.patternSummary.GetOr(""),
      d.lessons.GetOr([]), d.bestPractices.GetOr([]), d.antipatterns.GetOr([]),
      d.exceptions.GetOr([]), d.edgeCases.GetOr([]), d.contexts.GetOr([]), d.technologies.GetOr([]),
      EpisodeIds(episodes), |episodes|, Confidence(|episodes|), d.coherence.GetOr(DefaultCoherence),
      project, CommonTags(episodes), 0, None)
  }

  /** The outcome of synthesising one cluster: nothing when the model fails, its reply does
      not decode, or the result breaks a schema bound (a coherence outside [0, 1]). */
  function Synthesis(
    episodes: seq<Episode>, project: string, reply: Option<string>,
    decode: string -> Option<SynthesisData>, id: string, now: int): (r: Option<MetaMemory>)
    ensures r.Some? <==> reply.Some? && decode(Unfence(reply.value)).Some? &&
                         InUnit(decode(Unfence(reply.value)).value.coherence.GetOr(DefaultCoherence))
    ensures r.Some? ==> r.value.Valid()
    ensures r.Some? ==> r.value.episodeCount == |episodes| == |r.value.sourceEpisodeIds|
    ensures r.Some? ==> r.value.sourceEpisodeIds == EpisodeIds(episodes) && r.value.projectName == project
    ensures r.Some? ==> r.value.confidence == Confidence(|episodes|) && r.value.tags == CommonTags(episodes)
  {
    match reply
    case None => None
    case Some(text) =>
      match decode(Unfence(text))
      case None => None
      case Some(d) =>
        match ValidateMetaMemory(Draft(d, episodes, project, id, now))
        case Success(m) => Some(m)
        case Failure(_) => None
  }

  /** Synthesises one cluster from the model's reply. */
  method SynthesizeCluster(
    episodes: seq<Episode>, project: string, reply: Option<string>,
    decode: string -> Option<SynthesisData>, id: string, now: int) returns (r: Option<MetaMemory>)
    ensures r == Synthesis(episodes, project, reply, decode, id, now)
  {
    if reply.None? {
      return None;
    }
    var text := StripFences(reply.value);
    var data := decode(text);
    if data.None? {
      return None;
    }
    var tags := ExtractCommonTags(episodes);
    var d := data.value;
    var draft := MetaMemory(
      id, now, now,
      d.pattern.GetOr(UnknownPattern), d.patternSummary.GetOr(""),
      d.lessons.GetOr([]), d.bestPractices.GetOr([]), d.antipatterns.GetOr([]),
      d.exceptions.GetOr([]), d.edgeCases.GetOr([]), d.contexts.GetOr([]), d.technologies.GetOr([]),
      EpisodeIds(episodes), |episodes|, Confidence(|episodes|), d.coherence.GetOr(DefaultCoherence),
      project, tags, 0, None);
    assert draft == Draft(d, episodes, project, id, now);
    var checked := ValidateMetaMemory(draft);
    if checked.Success? {
      r := Some(checked.value);
    } else {
      r := None;
    }
  }

  // ---------------------------------------------------------------------
  // Consolidating a project

  /** The fetched episodes whose id is in the cluster, in fetch order. */
  function EpisodesIn(episodes: seq<Episode>, cluster: seq<string>): (r: seq<Episode>)
    ensures forall e :: e in r <==> e in episodes && e.id in cluster
    ensures IsSubsequence(r, episodes)
    decreases |episodes|
  {
    if |episodes| == 0 then []
    else
      var rest := EpisodesIn(episodes[1..], cluster);
      assert forall e :: e in episodes <==> e == episodes[0] || e in episodes[1..];
      if episodes[0].id in cluster then [episodes[0]] + rest
      else
        assert |rest| > 0 ==> rest[0] != episodes[0] by {
          if |rest| > 0 {
            assert rest[0] in rest;
          }
        }
        rest
  }

  /** What the k-th cluster contributes: a meta-memory when enough fetched episodes belong
      to it and its synthesis succeeds. */
  function ClusterOutcome(
    project: string, episodes: seq<Episode>, cluster: seq<string>, k: nat, minSize: int,
    reply: nat -> Option<string>, decode: string -> Option<SynthesisData>,
    freshId: nat -> string, now: int): Option<MetaMemory>
  {
    var members := EpisodesIn(episodes, cluster);
    if |members| >= minSize then Synthesis(members, project, reply(k), decode, freshId(k), now) else None
  }

  function Produced(o: Option<MetaMemory>): seq<MetaMemory> {
    match o
    case Some(m) => [m]
    case None => []
  }

  /** The meta-memories produced for the clusters, in cluster order. */
  function Plan(
    project: string, episodes: seq<Episode>, clusters: seq<seq<string>>, minSize: int,
    reply: nat -> Option<string>, decode: string -> Option<SynthesisData>,
    freshId: nat -> string, now: int): seq<MetaMemory>
    decreases |clusters|
  {
    if |clusters| == 0 then []
    else
      var n := |clusters| - 1;
      Plan(project, episodes, clusters[..n], minSize, reply, decode, freshId, now) +
      Produced(ClusterOutcome(project, episodes, clusters[n], n, minSize, reply, decode, freshId, now))
  }

  /** A meta-memory that is valid, belongs to the project, summarises at least `minSize`
      episodes, counts exactly its sources, and whose sources are all fetched episodes. */
  ghost predicate Sound(m: MetaMemory, project: string, minSize: int, episodes: seq<Episode>) {
    m.Valid() && m.projectName == project && m.episodeCount >= minSize &&
    m.episodeCount == |m.sourceEpisodeIds| &&
    (forall x :: x in m.sourceEpisodeIds ==> exists e :: e in episodes && e.id == x)
  }

  lemma OutcomeSound(
    project: string, episodes: seq<Episode>, cluster: seq<string>, k: nat, minSize: int,
    reply: nat -> Option<string>, decode: string -> Option<SynthesisData>,
    freshId: nat -> string, now: int)
    ensures var o := ClusterOutcome(project, episodes, cluster, k, minSize, reply, decode, freshId, now);
            o.Some? ==> Sound(o.value, project, minSize, episodes)
  {
    var members := EpisodesIn(episodes, cluster);
    var o := ClusterOutcome(project, episodes, cluster, k, minSize, reply, decode, freshId, now);
    if o.Some? {
      var m := o.value;
      assert m.sourceEpisodeIds == EpisodeIds(members);
      forall x | x in m.sourceEpisodeIds ensures exists e :: e in episodes && e.id == x {
        var i :| 0 <= i < |m.sourceEpisodeIds| && m.sourceEpisodeIds[i] == x;
        assert members[i] in members;
      }
    }
  }

  /** Every planned meta-memory is sound; at most one per cluster. */
  lemma {:induction false} PlanSound(
    project: string, episodes: seq<Episode>, clusters: seq<seq<string>>, minSize: int,
    reply: nat -> Option<string>, decode: string -> Option<SynthesisData>,
    freshId: nat -> string, now: int)
    ensures |Plan(project, episodes, clusters, minSize, reply, decode, freshId, now)| <= |clusters|
    ensures forall m :: m in Plan(project, episodes, clusters, minSize, reply, decode, freshId, now) ==>
              Sound(m, project, minSize, episodes)
    decreases |clusters|
  {
    if |clusters| > 0 {
      var n := |clusters| - 1;
      PlanSound(project, episodes, clusters[..n], minSize, reply, decode, freshId, now);
      OutcomeSound(project, episodes, clusters[n], n, minSize, reply, decode, freshId, now);
    }
  }

  lemma PlanSnoc(
    project: string, episodes: seq<Episode>, clusters: seq<seq<string>>, k: int, minSize: int,
    reply: nat -> Option<string>, decode: string -> Option<SynthesisData>,
    freshId: nat -> string, now: int)
    requires 0 <= k < |clusters|
    ensures Plan(project, episodes, clusters[..k + 1], minSize, reply, decode, freshId, now) ==
            Plan(project, episodes, clusters[..k], minSize, reply, decode, freshId, now) +
            Produced(ClusterOutcome(project, episodes, clusters[k], k, minSize, reply, decode, freshId, now))
  {
    assert clusters[..k + 1][..k] == clusters[..k];
  }

  /** The result of consolidating a project: nothing when fewer episodes were fetched, or
      fewer embeddings found, than the minimum cluster size; otherwise the plan over the
      label groups. */
  function Consolidation(
    project: string, episodes: seq<Episode>, embeddedIds: seq<string>, labels: seq<int>, minSize: int,
    reply: nat -> Option<string>, decode: string -> Option<SynthesisData>,
    freshId: nat -> string, now: int): seq<MetaMemory>
    requires |labels| == |embeddedIds|
  {
    if |episodes| < minSize || |embeddedIds| < minSize then []
    else Plan(project, episodes, Clusters(labels, embeddedIds), minSize, reply, decode, freshId, now)
  }

  /** Too few episodes or embeddings produce nothing; otherwise every result is sound. */
  lemma ConsolidationSound(
    project: string, episodes: seq<Episode>, embeddedIds: seq<string>, labels: seq<int>, minSize: int,
    reply: nat -> Option<string>, decode: string -> Option<SynthesisData>,
    freshId: nat -> string, now: int)
    requires |labels| == |embeddedIds|
    ensures |episodes| < minSize || |embeddedIds| < minSize ==>
              Consolidation(project, episodes, embeddedIds, labels, minSize, reply, decode, freshId, now) == []
    ensures |Consolidation(project, episodes, embeddedIds, labels, minSize, reply, decode, freshId, now)|
              <= |ClusterOrder(labels)|
    ensures forall m :: m in Consolidation(project, episodes, embeddedIds, labels, minSize, reply, decode, freshId, now) ==>
              Sound(m, project, minSize, episodes)
  {
    PlanSound(project, episodes, Clusters(labels, embeddedIds), minSize, reply, decode, freshId, now);
  }

  /** The meta-memory collection the consolidator writes to. */
  class MetaMemoryStore {
    var stored: seq<MetaMemory>

    constructor ()
      ensures stored == []
    {
      stored := [];
    }

    method Store(m: MetaMemory)
      modifies this
      ensures stored == old(stored) + [m]
    {
      stored := stored + [m];
    }
  }

  /** Handles one cluster: the fetched episodes in it, if numerous enough, are synthesised
      and a successful result is stored. */
  method ConsolidateCluster(
    store: MetaMemoryStore, project: string, episodes: seq<Episode>, cluster: seq<string>, k: nat,
    minSize: int, reply: nat -> Option<string>, decode: string -> Option<SynthesisData>,
    freshId: nat -> string, now: int) returns (produced: seq<MetaMemory>)
    modifies store
    ensures produced == Produced(ClusterOutcome(project, episodes, cluster, k, minSize, reply, decode, freshId, now))
    ensures store.stored == old(store.stored) + produced
  {
    produced := [];
    var members := EpisodesIn(episodes, cluster);
    if |members| >= minSize {
      var m := SynthesizeCluster(members, project, reply(k), decode, freshId(k), now);
      if m.Some? {
        store.Store(m.value);
        produced := [m.value];
      }
    }
  }

  /** Consolidates a project: groups the embedded ids, synthesises and stores one
      meta-memory per large enough group whose synthesis succeeds. `force` is accepted
      and ignored. */
  method ConsolidateProject(
    store: MetaMemoryStore, project: string, force: bool,
    episodes: seq<Episode>, embeddedIds: seq<string>, labels: seq<int>, minSize: int,
    reply: nat -> Option<string>, decode: string -> Option<SynthesisData>,
    freshId: nat -> string, now: int) returns (metas: seq<MetaMemory>)
    requires |labels| == |embeddedIds|
    modifies store
    ensures metas == Consolidation(project, episodes, embeddedIds, labels, minSize, reply, decode, freshId, now)
    ensures store.stored == old(store.stored) + metas
  {
    if |episodes| < minSize {
      return [];
    }
    if |embeddedIds| < minSize {
      return [];
    }
    var clusters := ClusterEpisodes(labels, embeddedIds);
    metas := [];
    for k := 0 to |clusters|
      invariant metas == Plan(project, episodes, clusters[..k], minSize, reply, decode, freshId, now)
      invariant store.stored == old(store.stored) + metas
    {
      PlanSnoc(project, episodes, clusters, k, minSize, reply, decode, freshId, now);
      var produced := ConsolidateCluster(store, project, episodes, clusters[k], k, minSize, reply, decode, freshId, now);
      metas := metas + produced;
    }
    assert clusters[..|clusters|] == clusters;
  }
}
