/**
 The robust detector, the metric-kind policy layered over its score, and the check made after a fix
 that asks the detector's question again. Numbers are reals; float rounding is not modelled.
*/
module Detection {
  import opened Prelude
  import opened Statistics

  const MAD_C: real := 1.4826
  const FLAT_STEP_SCORE: real := 6.0
  const FLAT_MIN_RELATIVE: real := 0.5

  // ---------------------------------------------------------------- the score

  /** The size of a baseline, as the scale for moves off a window without spread. */
  function Magnitude(med: real): real {
    MaxReal(AbsReal(med), 1.0)
  }

  /** How anomalous `v` is against a warm window. */
  function Score(window: seq<real>, v: real): real
    requires window != []
  {
    ScoreAgainst(Median(window), Mad(window), v)
  }

  function ScoreAgainst(med: real, mad: real, v: real): real {
    var deviation := AbsReal(v - med);
    if mad > 0.0 then deviation / (MAD_C * mad)
    else if deviation <= FLAT_MIN_RELATIVE * Magnitude(med) then 0.0
    else MaxReal(FLAT_STEP_SCORE, deviation / Magnitude(med))
  }

  // ---------------------------------------------------------------- the policy

  datatype Kind = Ratio | Latency | Saturation | Default

  datatype Policy = Policy(enabled: bool, ratio: real, saturationRatio: real, saturationPercent: real,
    latencyCeiling: real)

  function LowerChar(c: char): char {
    if 'A' <= c <= 'Z' then (c as int + 32) as char else c
  }

  function Lower(s: string): string {
    if s == "" then "" else [LowerChar(s[0])] + Lower(s[1..])
  }

  predicate HasToken(s: string, token: string) {
    token <= s || (s != "" && HasToken(s[1..], token))
  }

  predicate HasAnyToken(s: string, tokens: seq<string>) {
    exists i :: 0 <= i < |tokens| && HasToken(s, tokens[i])
  }

  predicate EndsWith(s: string, suffix: string) {
    |suffix| <= |s| && s[|s| - |suffix|..] == suffix
  }

  function Classify(name: string): Kind {
    var n := Lower(name);
    if HasAnyToken(n, ["error_rate", "error_ratio", "_ratio"]) then Ratio
    else if HasAnyToken(n, ["latency", "duration", "_ms"]) then Latency
    else if HasAnyToken(n, ["saturation", "utilization", "disk_usage", "cpu_usage", "_percent"]) then Saturation
    else Default
  }

  predicate PercentScale(name: string) {
    EndsWith(Lower(name), "_percent") || Lower(name) == "cpu_usage"
  }

  predicate IsAnomaly(p: Policy, name: string, value: Option<real>, score: real, z: real) {
    if !p.enabled then score > z
    else if value.None? then false
    else
      match Classify(name)
      case Ratio => value.value > p.ratio
      case Saturation => value.value > (if PercentScale(name) then p.saturationPercent else p.saturationRatio)
      case Latency => score > z || value.value > p.latencyCeiling
      case Default => score > z
  }

  /** Whether the detector would call `v` anomalous as the next sample of a warm window. */
  predicate Flagged(p: Policy, z: real, name: string, window: seq<real>, v: real)
    requires window != []
  {
    IsAnomaly(p, name, Some(v), Score(window, v), z)
  }

  // ---------------------------------------------------------------- the check after a fix

  /** The baseline attached to a situation for one metric; either part may be missing. */
  datatype Baseline = Baseline(mean: Option<real>, std: Option<real>)

  function BaselineOf(window: seq<real>): Baseline
    requires window != []
  {
    Baseline(Some(Median(window)), Some(Mad(window) * MAD_C))
  }

  /** The signed score of a value against the attached baseline, and whether there was a usable one. */
  function BaselineScore(b: Option<Baseline>, v: real): (real, bool) {
    if b.None? || b.value.mean.None? then (0.0, false)
    else
      var mean := b.value.mean.value;
      if b.value.std.None? || b.value.std.value <= 0.0 then
        if AbsReal(v - mean) <= FLAT_MIN_RELATIVE * Magnitude(mean) then (0.0, true) else (FLAT_STEP_SCORE, true)
      else ((v - mean) / b.value.std.value, true)
  }

  predicate ScoreOnly(p: Policy, name: string) {
    !p.enabled || Classify(name).Default?
  }

  /** Whether one metric counts as recovered; `current` is None when the query failed. */
  predicate Recovered(p: Policy, z: real, name: string, b: Option<Baseline>, current: Option<real>) {
    if current.None? then false
    else
      var (score, usable) := BaselineScore(b, current.value);
      if ScoreOnly(p, name) then usable && AbsReal(score) <= z
      else !IsAnomaly(p, name, current, score, z)
  }

  // ---------------------------------------------------------------- outliers cannot hide an anomaly

  lemma DivideExceeds(x: real, d: real, z: real)
    requires d > 0.0 && x > z * d
    ensures x / d > z
  {
  }

  lemma ScaleUp(z: real, x: real, y: real)
    requires 0.0 <= z && x <= y
    ensures z * x <= z * y
  {
  }

  lemma ExceedsInUnits(deviation: real, z: real, unit: real, bound: real)
    requires 0.0 < unit <= bound && 0.0 <= z && deviation > z * bound
    ensures deviation / unit > z
  {
    ScaleUp(z, unit, bound);
    DivideExceeds(deviation, unit, z);
  }

  /** How far `v` lies outside [a, b]. */
  function Distance(v: real, a: real, b: real): real {
    if v < a then a - v else v - b
  }

  lemma FartherFromCenter(v: real, a: real, b: real, med: real)
    requires a <= med <= b && Distance(v, a, b) > 0.0
    ensures AbsReal(v - med) >= Distance(v, a, b)
    ensures Magnitude(med) <= MaxReal(MaxReal(AbsReal(a), AbsReal(b)), 1.0)
  {
  }

  lemma FarOffSpread(deviation: real, mad: real, spread: real, z: real)
    requires 0.0 < mad <= spread && 0.0 <= z && deviation > z * (MAD_C * spread)
    ensures deviation / (MAD_C * mad) > z
  {
    ExceedsInUnits(deviation, z, MAD_C * mad, MAD_C * spread);
  }

  lemma FarOffFlat(med: real, v: real, z: real)
    requires z < FLAT_STEP_SCORE && AbsReal(v - med) > FLAT_MIN_RELATIVE * Magnitude(med)
    ensures ScoreAgainst(med, 0.0, v) > z
  {
  }

  lemma FarIsFlagged(med: real, mad: real, v: real, a: real, b: real, z: real)
    requires a <= med <= b && 0.0 <= mad <= b - a && 0.0 <= z < FLAT_STEP_SCORE
    requires Distance(v, a, b) > z * (MAD_C * (b - a))
    requires Distance(v, a, b) > FLAT_MIN_RELATIVE * MaxReal(MaxReal(AbsReal(a), AbsReal(b)), 1.0)
    ensures ScoreAgainst(med, mad, v) > z
  {
    FartherFromCenter(v, a, b, med);
    var deviation := AbsReal(v - med);
    if mad > 0.0 {
      assert deviation > z * (MAD_C * (b - a));
      FarOffSpread(deviation, mad, b - a, z);
    } else {
      ScaleUp(FLAT_MIN_RELATIVE, Magnitude(med), MaxReal(MaxReal(AbsReal(a), AbsReal(b)), 1.0));
      assert deviation > FLAT_MIN_RELATIVE * Magnitude(med);
      FarOffFlat(med, v, z);
    }
  }

  /**
   When more than half of a warm window lies in [a, b], then whatever the other samples are, a value
   farther from [a, b] than both z * 1.4826 * (b - a) and half the baseline's size is flagged, for every
   metric whose score counts.
   */
  lemma MinorityCannotMask(p: Policy, name: string, window: seq<real>, a: real, b: real, v: real, z: real)
    requires ScoreOnly(p, name) || Classify(name).Latency?
    requires MajorityWithin(window, a, b) && 0.0 <= z < FLAT_STEP_SCORE
    requires FarOff(v, a, b, z)
    ensures window != [] && Flagged(p, z, name, window, v)
  {
    MajorityDecidesScore(window, a, b, v, z);
  }

  /** Farther from [a, b] than both its spread and half its size allow. */
  predicate FarOff(v: real, a: real, b: real, z: real) {
    && Distance(v, a, b) > z * (MAD_C * (b - a))
    && Distance(v, a, b) > FLAT_MIN_RELATIVE * MaxReal(MaxReal(AbsReal(a), AbsReal(b)), 1.0)
  }

  lemma MajorityDecidesScore(window: seq<real>, a: real, b: real, v: real, z: real)
    requires MajorityWithin(window, a, b) && 0.0 <= z < FLAT_STEP_SCORE && FarOff(v, a, b, z)
    ensures window != [] && Score(window, v) > z
  {
    MedianFollowsMajority(window, a, b);
    MadFollowsMajority(window, a, b);
    FarIsFlagged(Median(window), Mad(window), v, a, b, z);
  }

  // ---------------------------------------------------------------- verifier and detector agree

  lemma SignedAndAbsolute(x: real, d: real)
    requires d > 0.0
    ensures AbsReal(x / d) == AbsReal(x) / d
  {
    if x < 0.0 {
      assert x / d == -((-x) / d);
      assert (-x) / d >= 0.0;
    } else {
      assert x / d >= 0.0;
    }
  }

  /** The verifier's score has the detector's magnitude, except for how far a step off a flat line goes. */
  lemma ScoresCorrespond(window: seq<real>, v: real)
    requires window != []
    ensures
      var (score, usable) := BaselineScore(Some(BaselineOf(window)), v);
      && usable
      && (Mad(window) > 0.0 ==>
            && AbsReal(score) == Score(window, v)
            && (score >= 0.0 <==> v >= Median(window)))
      && (Mad(window) == 0.0 ==>
            && (Score(window, v) == 0.0 <==> score == 0.0)
            && (score == 0.0 || (score == FLAT_STEP_SCORE && Score(window, v) >= FLAT_STEP_SCORE)))
  {
    MadNonNegative(window);
    var med, mad := Median(window), Mad(window);
    if mad > 0.0 {
      assert mad * MAD_C == MAD_C * mad > 0.0;
      SignedAndAbsolute(v - med, MAD_C * mad);
    }
  }

  /** How far a flat window's own score goes beyond the threshold that the verifier caps at six. */
  predicate BeyondCap(window: seq<real>, v: real, z: real)
    requires window != []
  {
    z >= FLAT_STEP_SCORE && Mad(window) == 0.0 && AbsReal(v - Median(window)) / Magnitude(Median(window)) > z
  }

  lemma SmallMove(deviation: real, magnitude: real)
    requires magnitude >= 1.0 && deviation <= FLAT_MIN_RELATIVE * magnitude
    ensures deviation / magnitude <= FLAT_MIN_RELATIVE
  {
  }

  /** A move off a flat line that scores nothing is not beyond the cap either. */
  lemma QuietIsWithinCap(window: seq<real>, v: real, z: real)
    requires window != [] && AbsReal(v - Median(window)) <= FLAT_MIN_RELATIVE * Magnitude(Median(window))
    ensures !BeyondCap(window, v, z)
  {
    SmallMove(AbsReal(v - Median(window)), Magnitude(Median(window)));
  }

  /**
   For metrics decided by score alone, the verifier calls a value recovered exactly when the detector
   would not flag it, unless the threshold is six or more and a flat series moved by more than that.
   */
  lemma ScoreOnlyVerdictsAgree(p: Policy, z: real, name: string, window: seq<real>, v: real)
    requires window != [] && ScoreOnly(p, name)
    ensures (Recovered(p, z, name, Some(BaselineOf(window)), Some(v)) <==> !Flagged(p, z, name, window, v))
      <==> !BeyondCap(window, v, z)
  {
    ScoresCorrespond(window, v);
    MadNonNegative(window);
    if AbsReal(v - Median(window)) <= FLAT_MIN_RELATIVE * Magnitude(Median(window)) {
      QuietIsWithinCap(window, v, z);
    }
  }

  lemma OneSample(v: real)
    ensures Median([v]) == v && Mad([v]) == 0.0
  {
    assert Sort([v]) == [v];
    assert Deviations([v], v) == [0.0];
    assert Sort([0.0]) == [0.0];
  }

  /** Such a move: a flat line at ten, a threshold of seven, and a hundred is flagged and found recovered. */
  lemma FlatStepIsMissed(p: Policy, name: string)
    requires ScoreOnly(p, name)
    ensures Flagged(p, 7.0, name, [10.0], 100.0)
    ensures Recovered(p, 7.0, name, Some(BaselineOf([10.0])), Some(100.0))
  {
    OneSample(10.0);
  }

  /** Bounded metrics are judged by their level alone, so detector and verifier always agree on them. */
  lemma LevelVerdictsAgree(p: Policy, z: real, name: string, window: seq<real>, b: Option<Baseline>, v: real)
    requires window != [] && p.enabled && (Classify(name).Ratio? || Classify(name).Saturation?)
    ensures Recovered(p, z, name, b, Some(v)) <==> !Flagged(p, z, name, window, v)
  {
  }

  // ---------------------------------------------------------------- the level from which a value is flagged

  predicate StandsAt(s: string, token: string, i: int) {
    0 <= i <= |s| - |token| && s[i..i + |token|] == token
  }

  ghost predicate Contains(s: string, token: string) {
    exists i :: StandsAt(s, token, i)
  }

  lemma {:induction false} TokenIsContained(s: string, token: string)
    ensures HasToken(s, token) <==> Contains(s, token)
  {
    if token <= s {
      assert StandsAt(s, token, 0);
    } else if s != "" {
      TokenIsContained(s[1..], token);
      if i :| StandsAt(s[1..], token, i) {
        assert StandsAt(s, token, i + 1);
      }
      if i :| StandsAt(s, token, i) {
        assert i > 0 && StandsAt(s[1..], token, i - 1);
      }
    }
  }

  /** The name in lower case holds one of these. */
  ghost predicate Names(name: string, tokens: set<string>) {
    exists t :: t in tokens && Contains(Lower(name), t)
  }

  const RATIO_TOKENS := {"error_rate", "error_ratio", "_ratio"}
  const LATENCY_TOKENS := {"latency", "duration", "_ms"}
  const SATURATION_TOKENS := {"saturation", "utilization", "disk_usage", "cpu_usage", "_percent"}

  lemma AnyTokenIsNamed(name: string, tokens: seq<string>)
    ensures HasAnyToken(Lower(name), tokens) <==> Names(name, set t | t in tokens)
  {
    forall t: string ensures HasToken(Lower(name), t) <==> Contains(Lower(name), t) {
      TokenIsContained(Lower(name), t);
    }
    forall t | t in tokens && Contains(Lower(name), t) ensures HasAnyToken(Lower(name), tokens) {
      assert HasToken(Lower(name), t);
    }
  }

  lemma KindByTokens(name: string)
    ensures Classify(name).Ratio? <==> Names(name, RATIO_TOKENS)
    ensures Classify(name).Latency? <==> Names(name, LATENCY_TOKENS) && !Names(name, RATIO_TOKENS)
    ensures Classify(name).Saturation? <==>
      Names(name, SATURATION_TOKENS) && !Names(name, LATENCY_TOKENS) && !Names(name, RATIO_TOKENS)
  {
    var r, l := ["error_rate", "error_ratio", "_ratio"], ["latency", "duration", "_ms"];
    var s := ["saturation", "utilization", "disk_usage", "cpu_usage", "_percent"];
    AnyTokenIsNamed(name, r);
    AnyTokenIsNamed(name, l);
    AnyTokenIsNamed(name, s);
    assert (set t | t in r) == RATIO_TOKENS;
    assert (set t | t in l) == LATENCY_TOKENS;
    assert (set t | t in s) == SATURATION_TOKENS;
  }

  lemma {:induction false} LowerFolds(s: string)
    ensures |Lower(s)| == |s|
    ensures forall i :: 0 <= i < |s| ==>
      Lower(s)[i] == if 'A' <= s[i] <= 'Z' then (s[i] as int + 32) as char else s[i]
  {
    if s != "" {
      LowerFolds(s[1..]);
    }
  }

  predicate PercentName(n: string) {
    n == "cpu_usage" || (|n| >= 8 && n[|n| - 8..] == "_percent")
  }

  /**
   The level from which a value is flagged, and found unhealthy, whatever the window and the baseline are; and
   where there is none, or it is not reached, only the score flags.
   */
  lemma LevelsDecide(p: Policy, z: real, name: string, window: seq<real>, b: Option<Baseline>, v: real)
    requires window != [] && p.enabled
    ensures Classify(name).Ratio? ==>
      (Flagged(p, z, name, window, v) <==> v > p.ratio) && (Recovered(p, z, name, b, Some(v)) <==> v <= p.ratio)
    ensures Classify(name).Saturation? ==>
      var level := if PercentName(Lower(name)) then p.saturationPercent else p.saturationRatio;
      (Flagged(p, z, name, window, v) <==> v > level) && (Recovered(p, z, name, b, Some(v)) <==> v <= level)
    ensures Classify(name).Latency? && v > p.latencyCeiling ==>
      Flagged(p, z, name, window, v) && !Recovered(p, z, name, b, Some(v))
    ensures Classify(name).Default? || (Classify(name).Latency? && v <= p.latencyCeiling) ==>
      (Flagged(p, z, name, window, v) <==> Score(window, v) > z)
  {
  }

  /** Without a usable baseline a metric has recovered only where a level decides, and then exactly up to it. */
  lemma RecoveredWithoutBaseline(p: Policy, z: real, name: string, b: Option<Baseline>, v: real)
    requires z >= 0.0 && (b.None? || b.value.mean.None?)
    ensures Recovered(p, z, name, b, Some(v)) <==>
      && p.enabled && !Classify(name).Default?
      && (Classify(name).Ratio? ==> v <= p.ratio)
      && (Classify(name).Latency? ==> v <= p.latencyCeiling)
      && (Classify(name).Saturation? ==>
            v <= if PercentName(Lower(name)) then p.saturationPercent else p.saturationRatio)
  {
  }

  /** The score is past the threshold exactly if the move exceeds that many spreads; off a flat line, half its size. */
  lemma ScoreExceedsIff(window: seq<real>, v: real, z: real)
    requires window != [] && z >= 0.0
    ensures Mad(window) > 0.0 ==> (Score(window, v) > z <==> AbsReal(v - Median(window)) > z * (1.4826 * Mad(window)))
    ensures Mad(window) == 0.0 && z < 6.0 ==>
      (Score(window, v) > z <==>
        AbsReal(v - Median(window)) > 0.5 && AbsReal(v - Median(window)) > 0.5 * AbsReal(Median(window)))
    ensures Mad(window) == 0.0 && z >= 6.0 ==>
      (Score(window, v) > z <==> AbsReal(v - Median(window)) > z * MaxReal(1.0, AbsReal(Median(window))))
  {
    MadNonNegative(window);
    var deviation, unit := AbsReal(v - Median(window)), 1.4826 * Mad(window);
    if Mad(window) > 0.0 {
      if deviation > z * unit {
        DivideExceeds(deviation, unit, z);
      } else {
        DivideStays(deviation, unit, z);
      }
    } else {
      FlatStepExceedsIff(Median(window), v, z);
    }
  }

  lemma FlatStepExceedsIff(med: real, v: real, z: real)
    ensures z >= 6.0 ==>
      (ScoreAgainst(med, 0.0, v) > z <==> AbsReal(v - med) > z * MaxReal(1.0, AbsReal(med)))
  {
    var deviation, size := AbsReal(v - med), MaxReal(1.0, AbsReal(med));
    assert size == Magnitude(med) >= 1.0;
    if z >= 6.0 {
      if deviation > z * size {
        DivideExceeds(deviation, size, z);
        ScaleUp(size, 0.5, z);
      } else {
        DivideStays(deviation, size, z);
      }
    }
  }

  lemma DivideStays(x: real, d: real, z: real)
    requires d > 0.0 && x <= z * d
    ensures x / d <= z
  {
  }

  /**
   Latency is judged by a signed score afterwards and an absolute one before: the two disagree exactly
   on values far below the baseline (and, for thresholds of six or more, beyond the cap).
   */
  lemma LatencyVerdictsAgree(p: Policy, z: real, name: string, window: seq<real>, v: real)
    requires window != [] && p.enabled && Classify(name).Latency? && z >= 0.0
    ensures (Recovered(p, z, name, Some(BaselineOf(window)), Some(v)) <==> !Flagged(p, z, name, window, v))
      <==> v > p.latencyCeiling ||
           !(BeyondCap(window, v, z) || (Mad(window) > 0.0 && v < Median(window) && Score(window, v) > z))
  {
    ScoresCorrespond(window, v);
    MadNonNegative(window);
    if AbsReal(v - Median(window)) <= FLAT_MIN_RELATIVE * Magnitude(Median(window)) {
      QuietIsWithinCap(window, v, z);
    }
  }

  lemma ThreeSamples(a: real, b: real, c: real)
    requires a <= b <= c
    ensures Sort([a, b, c]) == [a, b, c] && Median([a, b, c]) == b
  {
    assert [a, b, c][1..] == [b, c] && [b, c][1..] == [c];
    assert Sort([c]) == [c] && Sort([b, c]) == [b, c];
  }

  /** Such a value: around a hundred milliseconds, none at all is flagged and found recovered. */
  lemma LatencyDropIsMissed(p: Policy, name: string)
    requires p.enabled && Classify(name).Latency? && p.latencyCeiling >= 0.0
    ensures Flagged(p, 3.0, name, [90.0, 100.0, 110.0], 0.0)
    ensures Recovered(p, 3.0, name, Some(BaselineOf([90.0, 100.0, 110.0])), Some(0.0))
  {
    var window := [90.0, 100.0, 110.0];
    ThreeSamples(90.0, 100.0, 110.0);
    assert Deviations(window, 100.0) == [10.0, 0.0, 10.0];
    assert [10.0, 0.0, 10.0][1..] == [0.0, 10.0] && [0.0, 10.0][1..] == [10.0];
    assert Sort([10.0]) == [10.0] && Sort([0.0, 10.0]) == [0.0, 10.0] && Sort([10.0, 0.0, 10.0]) == [0.0, 10.0, 10.0];
    assert Mad(window) == 10.0;
  }
}
