/** Hybrid ranking ("reinforcement without forgetting") and the automatic
    consolidation trigger. Scores are real numbers; the source's floats are
    taken as exact. */
module Scoring {
  import opened Models
  import opened Seqs

  const DefaultAccessBoost: real := 0.1
  const CriticalBoost: real := 1.5
  const AntipatternPenalty: real := 0.3
  const ConsolidationAccessThreshold: int := 10
  const ConsolidationEpisodeThreshold: int := 20

  /** Usage multiplier: each recorded access adds `accessBoost`. */
  function ComputeBoost(e: Episode, accessBoost: real): (boost: real)
    ensures e.accessCount == 0 ==> boost == 1.0
    ensures e.accessCount >= 0 && accessBoost >= 0.0 ==> boost >= 1.0
    ensures accessBoost > 0.0 ==> (boost > 1.0 <==> e.accessCount > 0)
  {
    1.0 + accessBoost * e.accessCount as real
  }

  function CriticalModifier(e: Episode): real {
    if e.isCritical then CriticalBoost else 1.0
  }

  function AntipatternModifier(e: Episode): real {
    if e.isAntipattern then AntipatternPenalty else 1.0
  }

  /** The episode with both ranking flags cleared. */
  function Unflagged(e: Episode): Episode {
    e.(isCritical := false, isAntipattern := false)
  }

  /** semantic * boost * importance * critical modifier * antipattern modifier */
  function HybridScore(e: Episode, semantic: real, accessBoost: real): (score: real)
    ensures semantic == 0.0 ==> score == 0.0
    ensures semantic > 0.0 && e.importance > 0.0 && e.accessCount >= 0 && accessBoost >= 0.0 ==> score > 0.0
  {
    var boost := ComputeBoost(e, accessBoost);
    var mods := CriticalModifier(e) * AntipatternModifier(e);
    assert mods > 0.0;
    assert semantic > 0.0 && e.importance > 0.0 && boost >= 1.0 ==> semantic * boost * e.importance > 0.0;
    semantic * boost * e.importance * CriticalModifier(e) * AntipatternModifier(e)
  }

  /** Each flag multiplies the unflagged score by its own modifier; both apply together. */
  lemma FlagsMultiply(e: Episode, semantic: real, accessBoost: real)
    ensures HybridScore(e, semantic, accessBoost) ==
            HybridScore(Unflagged(e), semantic, accessBoost) * CriticalModifier(e) * AntipatternModifier(e)
    ensures e.isCritical && e.isAntipattern ==>
            HybridScore(e, semantic, accessBoost) == 0.45 * HybridScore(Unflagged(e), semantic, accessBoost)
    ensures e.isCritical && !e.isAntipattern ==>
            HybridScore(e, semantic, accessBoost) == 1.5 * HybridScore(Unflagged(e), semantic, accessBoost)
    ensures !e.isCritical && e.isAntipattern ==>
            HybridScore(e, semantic, accessBoost) == 0.3 * HybridScore(Unflagged(e), semantic, accessBoost)
  {
    var base := semantic * ComputeBoost(e, accessBoost) * e.importance;
    assert HybridScore(Unflagged(e), semantic, accessBoost) == base;
    assert HybridScore(e, semantic, accessBoost) == base * CriticalModifier(e) * AntipatternModifier(e);
  }

  /** With a positive semantic score and importance, more accesses strictly raise the score,
      and two scores stand in the ratio of their boosts. */
  lemma MoreAccessesScoreHigher(e: Episode, semantic: real, accessBoost: real, fewer: int, more: int)
    requires semantic > 0.0 && e.importance > 0.0 && accessBoost > 0.0
    requires 0 <= fewer < more
    ensures HybridScore(e.(accessCount := fewer), semantic, accessBoost)
          < HybridScore(e.(accessCount := more), semantic, accessBoost)
    ensures HybridScore(e.(accessCount := more), semantic, accessBoost) * ComputeBoost(e.(accessCount := fewer), accessBoost)
         == HybridScore(e.(accessCount := fewer), semantic, accessBoost) * ComputeBoost(e.(accessCount := more), accessBoost)
  {
    var lo, hi := e.(accessCount := fewer), e.(accessCount := more);
    var k := semantic * e.importance * CriticalModifier(e) * AntipatternModifier(e);
    assert k > 0.0 by {
      assert semantic * e.importance > 0.0;
    }
    var bLo, bHi := ComputeBoost(lo, accessBoost), ComputeBoost(hi, accessBoost);
    assert HybridScore(lo, semantic, accessBoost) == k * bLo;
    assert HybridScore(hi, semantic, accessBoost) == k * bHi;
    var gap := (more - fewer) as real;
    assert gap > 0.0;
    assert accessBoost * gap > 0.0;
    assert accessBoost * more as real == accessBoost * fewer as real + accessBoost * gap;
    assert bLo == 1.0 + accessBoost * fewer as real;
    assert bHi == 1.0 + accessBoost * more as real;
    assert bHi - bLo == accessBoost * gap;
    assert bLo < bHi;
  }

  /** The creation time of an episode plays no part in its score. */
  lemma ScoreIgnoresTimestamp(e: Episode, semantic: real, accessBoost: real, t: int)
    ensures HybridScore(e.(timestamp := t), semantic, accessBoost) == HybridScore(e, semantic, accessBoost)
  {
  }

  /** Consolidation is recommended once an episode is hot or enough episodes are waiting. */
  function ShouldTriggerConsolidation(accessCount: int, totalUnconsolidated: int): (r: bool)
    ensures r <==> accessCount >= ConsolidationAccessThreshold || totalUnconsolidated >= ConsolidationEpisodeThreshold
  {
    if accessCount >= ConsolidationAccessThreshold then true
    else if totalUnconsolidated >= ConsolidationEpisodeThreshold then true
    else false
  }

  /** Once triggered, more accesses or more waiting episodes keep the trigger on. */
  lemma TriggerMonotone(a: int, t: int, a': int, t': int)
    requires a <= a' && t <= t'
    requires ShouldTriggerConsolidation(a, t)
    ensures ShouldTriggerConsolidation(a', t')
  {
  }

  predicate IsHot(e: Episode, threshold: int) {
    e.accessCount >= threshold
  }

  /** The episodes whose access count reaches the threshold, in input order. */
  function HotEpisodes(episodes: seq<Episode>, threshold: int): (hot: seq<Episode>)
    ensures forall e :: multiset(hot)[e] == if IsHot(e, threshold) then multiset(episodes)[e] else 0
    ensures IsSubsequence(hot, episodes)
    ensures |hot| <= |episodes|
    decreases |episodes|
  {
    if |episodes| == 0 then []
    else
      var rest := HotEpisodes(episodes[1..], threshold);
      assert episodes == [episodes[0]] + episodes[1..];
      if IsHot(episodes[0], threshold) then
        [episodes[0]] + rest
      else
        assert |rest| > 0 ==> rest[0] != episodes[0] by {
          if |rest| > 0 {
            assert rest[0] in multiset(rest);
          }
        }
        rest
  }
}
