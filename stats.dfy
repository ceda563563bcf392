/** The sample aggregation of `QdrantStorySearch.get_stats`: the average quality of the
    sampled stories that carry a non-zero score (5.0 when none does), and the number of
    distinct non-empty moods seen in the sample. */
module Stats {
  import opened Wrappers
  import opened Story

  /** The statistics object; `last_updated` (a clock reading) is not part of the model. */
  datatype Stats = Stats(totalStories: nat, moodsCount: nat, avgQuality: real)

  /** What `get_stats` returns when a store call fails. */
  const FailedStats: Stats := Stats(0, 0, 0.0)

  /** The average reported when no sampled story has a usable score. */
  const DefaultAverage: real := 5.0

  /** `r.payload.get("quality_score")` is truthy: present and non-zero. */
  predicate HasScore(p: Payload) {
    p.qualityScore.Some? && p.qualityScore.value != 0
  }

  /** `r.payload.get("mood")` is truthy: present and non-empty. */
  predicate HasMood(p: Payload) {
    p.mood.Some? && p.mood.value != ""
  }

  // ---------------------------------------------------------------------------
  // quality average

  /** The scores the comprehension keeps, in sample order. */
  function QualityScores(sample: seq<Payload>): (scores: seq<int>)
    ensures |scores| <= |sample|
    ensures forall i :: 0 <= i < |scores| ==> scores[i] != 0
  {
    if sample == [] then []
    else
      (if HasScore(sample[0]) then [sample[0].qualityScore.value] else []) +
      QualityScores(sample[1..])
  }

  /** A score is kept exactly when some sampled story carries it as a non-zero score. */
  lemma {:induction false} QualityScoresMembership(sample: seq<Payload>, q: int)
    ensures q in QualityScores(sample) <==>
      exists i :: 0 <= i < |sample| && HasScore(sample[i]) && sample[i].qualityScore.value == q
  {
    if sample != [] {
      QualityScoresMembership(sample[1..], q);
      if exists i :: 0 <= i < |sample| && HasScore(sample[i]) && sample[i].qualityScore.value == q {
        var i :| 0 <= i < |sample| && HasScore(sample[i]) && sample[i].qualityScore.value == q;
        if i > 0 { assert sample[1..][i - 1] == sample[i]; }
      }
      if q in QualityScores(sample[1..]) {
        var i :| 0 <= i < |sample[1..]| && HasScore(sample[1..][i]) && sample[1..][i].qualityScore.value == q;
        assert sample[i + 1] == sample[1..][i];
      }
    }
  }

  /** Filtering distributes over concatenation of samples. */
  lemma {:induction false} QualityScoresAppend(a: seq<Payload>, b: seq<Payload>)
    ensures QualityScores(a + b) == QualityScores(a) + QualityScores(b)
  {
    if a != [] {
      assert (a + b)[1..] == a[1..] + b;
      QualityScoresAppend(a[1..], b);
    } else {
      assert a + b == b;
    }
  }

  function Sum(xs: seq<int>): int {
    if xs == [] then 0 else xs[0] + Sum(xs[1..])
  }

  /** The mean of the kept scores, exactly; the default 5.0 when none is kept. */
  function AverageQuality(sample: seq<Payload>): (avg: real)
    ensures QualityScores(sample) == [] ==> avg == DefaultAverage
    ensures var scores := QualityScores(sample);
      scores != [] ==> avg * |scores| as real == Sum(scores) as real
  {
    var scores := QualityScores(sample);
    if scores != [] then Sum(scores) as real / |scores| as real else DefaultAverage
  }

  lemma {:induction false} SumBounds(xs: seq<int>, lo: int, hi: int)
    requires forall i :: 0 <= i < |xs| ==> lo <= xs[i] <= hi
    ensures lo * |xs| <= Sum(xs) <= hi * |xs|
  {
    if xs != [] {
      SumBounds(xs[1..], lo, hi);
    }
  }

  lemma DivideBounds(s: int, n: nat, lo: int, hi: int)
    requires n > 0 && lo * n <= s <= hi * n
    ensures lo as real <= s as real / n as real <= hi as real
  {
    var q := s as real / n as real;
    assert q * n as real == s as real;
    assert (lo * n) as real == lo as real * n as real;
    assert (hi * n) as real == hi as real * n as real;
  }

  /** If every usable score lies in [lo, hi], so does the average; with no usable score the
      average is the default 5.0. */
  lemma AverageWithin(sample: seq<Payload>, lo: int, hi: int)
    requires forall i :: 0 <= i < |sample| && HasScore(sample[i]) ==>
      lo <= sample[i].qualityScore.value <= hi
    ensures QualityScores(sample) == [] ==> AverageQuality(sample) == DefaultAverage
    ensures QualityScores(sample) != [] ==>
      lo as real <= AverageQuality(sample) <= hi as real
  {
    var scores := QualityScores(sample);
    if scores != [] {
      forall k | 0 <= k < |scores| ensures lo <= scores[k] <= hi {
        QualityScoresMembership(sample, scores[k]);
      }
      SumBounds(scores, lo, hi);
      DivideBounds(Sum(scores), |scores|, lo, hi);
    }
  }

  /** With every kept score on the documented 1..10 scale the average stays on that scale;
      zero scores are skipped and do not count. */
  lemma AverageOnScale(sample: seq<Payload>)
    requires forall i :: 0 <= i < |sample| && HasScore(sample[i]) ==>
      1 <= sample[i].qualityScore.value <= 10
    ensures 1.0 <= AverageQuality(sample) <= 10.0
  {
    AverageWithin(sample, 1, 10);
  }

  // ---------------------------------------------------------------------------
  // distinct moods

  /** The moods set after the loop has seen `sample`. */
  function DistinctMoods(sample: seq<Payload>): (moods: set<string>)
    ensures |moods| <= |sample|
    ensures "" !in moods
  {
    if sample == [] then {}
    else
      var last := sample[|sample| - 1];
      DistinctMoods(sample[..|sample| - 1]) + (if HasMood(last) then {last.mood.value} else {})
  }

  /** A mood is counted exactly when some sampled story carries it, non-empty. */
  lemma {:induction false} DistinctMoodsMembership(sample: seq<Payload>, m: string)
    ensures m in DistinctMoods(sample) <==>
      exists i :: 0 <= i < |sample| && HasMood(sample[i]) && sample[i].mood.value == m
  {
    if sample != [] {
      var init := sample[..|sample| - 1];
      DistinctMoodsMembership(init, m);
      if exists i :: 0 <= i < |sample| && HasMood(sample[i]) && sample[i].mood.value == m {
        var i :| 0 <= i < |sample| && HasMood(sample[i]) && sample[i].mood.value == m;
        if i < |sample| - 1 { assert init[i] == sample[i]; }
      }
      if m in DistinctMoods(init) {
        var i :| 0 <= i < |init| && HasMood(init[i]) && init[i].mood.value == m;
        assert sample[i] == init[i];
      }
    }
  }

  /** One more sampled story adds its mood, if it has one. */
  lemma DistinctMoodsStep(sample: seq<Payload>, i: nat)
    requires i < |sample|
    ensures DistinctMoods(sample[..i + 1]) ==
      DistinctMoods(sample[..i]) + (if HasMood(sample[i]) then {sample[i].mood.value} else {})
  {
    assert sample[..i + 1][..i] == sample[..i];
  }

  /** The loop of `get_stats` that fills the `moods` set. */
  method CollectMoods(sample: seq<Payload>) returns (moods: set<string>)
    ensures moods == DistinctMoods(sample)
  {
    moods := {};
    for i := 0 to |sample|
      invariant moods == DistinctMoods(sample[..i])
    {
      DistinctMoodsStep(sample, i);
      var mood := sample[i].mood;
      if mood.Some? && mood.value != "" {
        moods := moods + {mood.value};
      }
    }
    assert sample[..|sample|] == sample;
  }

  /** `get_stats` over the outcomes of its two store calls (`None`: the call raised): the
      collection's point count and the sample of up to 100 payloads. */
  method GetStats(pointsCount: Option<nat>, sample: Option<seq<Payload>>) returns (stats: Stats)
    ensures pointsCount.None? || sample.None? ==> stats == FailedStats
    ensures pointsCount.Some? && sample.Some? ==>
      && stats.totalStories == pointsCount.value
      && stats.moodsCount == |DistinctMoods(sample.value)|
      && stats.avgQuality == AverageQuality(sample.value)
    ensures sample == Some([]) && pointsCount.Some? ==>
      stats.moodsCount == 0 && stats.avgQuality == DefaultAverage
  {
    if pointsCount.None? || sample.None? {
      return FailedStats;
    }
    var avg := AverageQuality(sample.value);
    var moods := CollectMoods(sample.value);
    stats := Stats(pointsCount.value, |moods|, avg);
  }
}
