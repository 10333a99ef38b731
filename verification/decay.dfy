/**
 * Forgetting curve of long-term memories:
 * score = 0.6 × timeDecay + 0.4 × min(1, accessCount / 10),
 * where timeDecay = exp(−daysSinceAccess / halfLifeDays).
 *
 * The exponential is the parameter `expDecay(days, halfLifeDays)`.
 */
module Decay {
  import opened Types

  datatype Calculator = Calculator(halfLifeDays: int, minScore: real)

  const SecondsPerDay: int := 86400

  /** Days since the last access, as a real (hours / 24). */
  function DaysSince(now: int, lastAccessAt: int): real
  {
    (now - lastAccessAt) as real / SecondsPerDay as real
  }

  /** min(1, accessCount / 10). */
  function FrequencyBonus(accessCount: int): (b: real)
    ensures b <= 1.0
    ensures accessCount >= 10 ==> b == 1.0
    ensures 0 <= accessCount ==> 0.0 <= b
    ensures accessCount < 10 ==> b == accessCount as real / 10.0
  {
    var f := accessCount as real / 10.0;
    if 1.0 <= f then 1.0 else f
  }

  function CalculateDecayScore(c: Calculator, now: int, lastAccessAt: int, accessCount: int,
                               expDecay: (real, int) -> real): (score: real)
    ensures var td := expDecay(DaysSince(now, lastAccessAt), c.halfLifeDays);
      (0.0 <= td <= 1.0 && accessCount >= 0 ==> 0.0 <= score <= 1.0)
      && (accessCount >= 10 ==> score == 0.6 * td + 0.4)
      && score <= 0.6 * td + 0.4
  {
    0.6 * expDecay(DaysSince(now, lastAccessAt), c.halfLifeDays) + 0.4 * FrequencyBonus(accessCount)
  }

  /** More accesses never lower the score. */
  lemma MoreAccessNeverLowers(c: Calculator, now: int, lastAccessAt: int, n: int, m: int,
                              expDecay: (real, int) -> real)
    requires n <= m
    ensures CalculateDecayScore(c, now, lastAccessAt, n, expDecay) <= CalculateDecayScore(c, now, lastAccessAt, m, expDecay)
  {
  }

  /** A memory is forgotten when its score falls below the minimum. */
  predicate ShouldEvict(c: Calculator, score: real)
  {
    score < c.minScore
  }

  /** Only the decay score is recomputed; every other field is kept. */
  function UpdateMetadataDecay(c: Calculator, m: LtmMetadata, now: int, expDecay: (real, int) -> real): (r: LtmMetadata)
    ensures r == m.(decayScore := r.decayScore)
    ensures var td := expDecay(DaysSince(now, m.lastAccessAt), c.halfLifeDays);
      (0.0 <= td <= 1.0 && m.accessCount >= 0) ==> 0.0 <= r.decayScore <= 1.0
  {
    m.(decayScore := CalculateDecayScore(c, now, m.lastAccessAt, m.accessCount, expDecay))
  }

  /** A recall: accessed now, one more access. */
  function RefreshAccess(m: LtmMetadata, now: int): (r: LtmMetadata)
    ensures r.lastAccessAt == now && r.accessCount == m.accessCount + 1
    ensures r == m.(lastAccessAt := now, accessCount := r.accessCount)
  {
    m.(lastAccessAt := now, accessCount := m.accessCount + 1)
  }

  /**
   * A memory refreshed just now scores at least 0.6 (exp(0) = 1), so it is
   * not forgotten under any minimum score up to 0.6.
   */
  lemma RefreshedIsKept(c: Calculator, m: LtmMetadata, now: int, expDecay: (real, int) -> real)
    requires expDecay(0.0, c.halfLifeDays) == 1.0
    requires m.accessCount >= 0
    requires c.minScore <= 0.6
    ensures var r := UpdateMetadataDecay(c, RefreshAccess(m, now), now, expDecay);
      r.decayScore >= 0.6 && !ShouldEvict(c, r.decayScore)
  {
    assert DaysSince(now, now) == 0.0;
  }
}
