/**
 Root-cause hypotheses: proposed by rules, optionally rescored, and ranked by confidence with a bounded
 boost for runbooks with a good track record. Confidences are reals.
*/
module Ranking {
  import opened Prelude
  import opened Detection

  datatype Source = ByRule | ByEmbedding | Unset

  datatype Hypothesis = Hypothesis(rule: string, confidence: real, runbook: Option<string>, source: Source)

  /** What the rules look at: a deploy of an affected service, the lower-cased metric names, log or error events. */
  datatype Signals = Signals(deployHit: bool, names: string, errors: bool)

  const RELIABILITY_WEIGHT: real := 0.15

  // ---------------------------------------------------------------- proposing

  /** Each names a runbook, at a confidence within the rules' range. */
  predicate Vetted(hyps: seq<Hypothesis>) {
    forall h :: h in hyps ==> h.runbook.Some? && 0.5 <= h.confidence <= 0.8
  }

  function IfFires(hyps: seq<Hypothesis>, fires: bool, rule: string, confidence: real,
    runbook: string): (more: seq<Hypothesis>)
    ensures Vetted(hyps) && 0.5 <= confidence <= 0.8 ==> Vetted(more)
  {
    if fires then hyps + [Hypothesis(rule, confidence, Some(runbook), Unset)] else hyps
  }

  /** The rules in order; something is always proposed, without a runbook only if no rule fires. */
  function Propose(s: Signals): (hyps: seq<Hypothesis>)
    ensures hyps != []
    ensures Vetted(hyps) || (|hyps| == 1 && hyps[0].runbook.None?)
  {
    var hyps := IfFires([], s.deployHit, "deploy", 0.8, "rollback-deploy");
    var hyps := IfFires(hyps, HasToken(s.names, "service_up"), "down", 0.7, "restart-pod");
    var hyps := IfFires(hyps, HasToken(s.names, "memory"), "memory", 0.65, "restart-pod");
    var hyps := IfFires(hyps, HasAnyToken(s.names, ["cpu", "disk", "saturation"]), "saturation", 0.6, "scale-service");
    var hyps := IfFires(hyps, HasAnyToken(s.names, ["latency", "duration", "queue_depth", "request_rate"]),
      "latency", 0.55, "scale-service");
    var hyps := IfFires(hyps, HasToken(s.names, "db_pool"), "pool", 0.62, "restart-pod");
    var hyps := IfFires(hyps, s.errors, "errors", 0.58, "restart-pod");
    if hyps == [] then [Hypothesis("undetermined", 0.2, None, Unset)] else hyps
  }

  // ---------------------------------------------------------------- rescoring

  /** A fit for a hypothesis, if the selector has one. */
  function Rescore(h: Hypothesis, fit: Hypothesis -> Option<real>): (r: Hypothesis)
    ensures r.rule == h.rule && r.runbook == h.runbook
    ensures 0.0 <= h.confidence <= 1.0 ==> 0.0 <= r.confidence <= 1.0
    ensures r.source.ByEmbedding? || r.confidence == h.confidence
    ensures r.source.ByEmbedding? && !h.source.ByEmbedding? ==>
      fit(h).Some? && 0.0 <= r.confidence <= 1.0 && (0.0 <= fit(h).value <= 1.0 ==> r.confidence == fit(h).value)
  {
    if h.runbook.None? then h
    else
      match fit(h)
      case Some(x) => h.(confidence := MinReal(1.0, MaxReal(0.0, x)), source := ByEmbedding)
      case None => h.(source := ByRule)
  }

  function RescoreAll(hyps: seq<Hypothesis>, fit: Hypothesis -> Option<real>): seq<Hypothesis> {
    seq(|hyps|, i requires 0 <= i < |hyps| => Rescore(hyps[i], fit))
  }

  // ---------------------------------------------------------------- ranking

  /** The track record of a runbook on this situation's signature; None when ranking goes by rules alone. */
  type Provider = Option<string -> real>

  function Reliability(provider: Provider, h: Hypothesis): real {
    if provider.None? || h.runbook.None? then 0.0 else MaxReal(0.0, MinReal(1.0, provider.value(h.runbook.value)))
  }

  /** The first sort key; the confidence itself is the second. */
  function Boosted(provider: Provider, h: Hypothesis): real {
    if provider.None? then h.confidence else MinReal(1.0, h.confidence + RELIABILITY_WEIGHT * Reliability(provider, h))
  }

  /** A hypothesis with its place in rule order, which a stable sort keeps among equals. */
  datatype Placed = Placed(hyp: Hypothesis, place: nat)

  predicate KeyAbove(provider: Provider, a: Hypothesis, b: Hypothesis) {
    Boosted(provider, a) > Boosted(provider, b) ||
    (Boosted(provider, a) == Boosted(provider, b) && a.confidence > b.confidence)
  }

  /** `a` is ranked ahead of `b`. */
  predicate Ahead(provider: Provider, a: Placed, b: Placed) {
    KeyAbove(provider, a.hyp, b.hyp) || (!KeyAbove(provider, b.hyp, a.hyp) && a.place < b.place)
  }

  function Place(hyps: seq<Hypothesis>): seq<Placed> {
    seq(|hyps|, i requires 0 <= i < |hyps| => Placed(hyps[i], i))
  }

  /** `out` is the stable sort of `hyps`, best first. */
  ghost predicate IsRanking(provider: Provider, hyps: seq<Hypothesis>, out: seq<Placed>) {
    && multiset(out) == multiset(Place(hyps))
    && forall i, j :: 0 <= i < j < |out| ==> Ahead(provider, out[i], out[j])
  }

  predicate InOrder(provider: Provider, xs: seq<Placed>) {
    forall i, j :: 0 <= i < j < |xs| ==> Ahead(provider, xs[i], xs[j])
  }

  lemma AheadIsTransitive(provider: Provider, a: Placed, b: Placed, c: Placed)
    requires Ahead(provider, a, b) && Ahead(provider, b, c)
    ensures Ahead(provider, a, c)
  {
  }

  lemma InsertedInOrder(provider: Provider, xs: seq<Placed>, k: nat, x: Placed)
    requires InOrder(provider, xs) && k <= |xs|
    requires forall i :: 0 <= i < k ==> Ahead(provider, xs[i], x)
    requires forall i :: k <= i < |xs| ==> Ahead(provider, x, xs[i])
    ensures InOrder(provider, xs[..k] + [x] + xs[k..])
    ensures multiset(xs[..k] + [x] + xs[k..]) == multiset(xs) + multiset{x}
  {
    assert xs == xs[..k] + xs[k..];
  }

  /** Put `x`, which comes after all of `xs` in rule order, where it belongs. */
  method InsertRanked(provider: Provider, xs: seq<Placed>, x: Placed) returns (ys: seq<Placed>)
    requires InOrder(provider, xs) && forall y :: y in xs ==> y.place < x.place
    ensures InOrder(provider, ys) && multiset(ys) == multiset(xs) + multiset{x}
  {
    var k := |xs|;
    while k > 0 && KeyAbove(provider, x.hyp, xs[k - 1].hyp)
      invariant 0 <= k <= |xs|
      invariant forall i :: k <= i < |xs| ==> Ahead(provider, x, xs[i])
    {
      k := k - 1;
    }
    forall i | 0 <= i < k ensures Ahead(provider, xs[i], x) {
      assert xs[k - 1] in xs;
      if i < k - 1 {
        AheadIsTransitive(provider, xs[i], xs[k - 1], x);
      }
    }
    InsertedInOrder(provider, xs, k, x);
    ys := xs[..k] + [x] + xs[k..];
  }

  /** Rescore every hypothesis in place. */
  method RescoreInPlace(proposed: seq<Hypothesis>, fit: Hypothesis -> Option<real>) returns (hyps: seq<Hypothesis>)
    ensures hyps == RescoreAll(proposed, fit)
  {
    hyps := proposed;
    var i := 0;
    while i < |hyps|
      invariant 0 <= i <= |hyps| == |proposed|
      invariant forall j :: 0 <= j < i ==> hyps[j] == Rescore(proposed[j], fit)
      invariant forall j :: i <= j < |hyps| ==> hyps[j] == proposed[j]
    {
      hyps := hyps[i := Rescore(hyps[i], fit)];
      i := i + 1;
    }
  }

  /** Sort, best first, keeping rule order among equals. */
  method SortRanked(provider: Provider, hyps: seq<Hypothesis>) returns (ranked: seq<Placed>)
    ensures IsRanking(provider, hyps, ranked)
  {
    ranked := [];
    var i := 0;
    while i < |hyps|
      invariant 0 <= i <= |hyps|
      invariant InOrder(provider, ranked) && multiset(ranked) == multiset(Place(hyps)[..i])
    {
      forall y | y in ranked ensures y.place < i {
        assert y in multiset(Place(hyps)[..i]);
      }
      ranked := InsertRanked(provider, ranked, Placed(hyps[i], i));
      assert Place(hyps)[..i + 1] == Place(hyps)[..i] + [Placed(hyps[i], i)];
      i := i + 1;
    }
    assert Place(hyps)[..i] == Place(hyps);
  }

  method RankHypotheses(s: Signals, fit: Hypothesis -> Option<real>, provider: Provider) returns (ranked: seq<Placed>)
    ensures IsRanking(provider, RescoreAll(Propose(s), fit), ranked)
  {
    var hyps := RescoreInPlace(Propose(s), fit);
    ranked := SortRanked(provider, hyps);
  }

  // ---------------------------------------------------------------- what ranking guarantees

  /** The metric names hold one of these words. */
  ghost predicate Mentions(names: string, words: set<string>) {
    exists word :: word in words && Contains(names, word)
  }

  lemma MentionsOne(names: string, word: string)
    ensures HasToken(names, word) <==> Mentions(names, {word})
  {
    TokenIsContained(names, word);
  }

  lemma MentionsAny(names: string, words: seq<string>)
    ensures HasAnyToken(names, words) <==> Mentions(names, set word | word in words)
  {
    forall word: string ensures HasToken(names, word) <==> Contains(names, word) {
      TokenIsContained(names, word);
    }
    forall word | word in words && Contains(names, word) ensures HasAnyToken(names, words) {
      assert HasToken(names, word);
    }
  }

  function ByRuleOnly(rule: string, confidence: real, runbook: Option<string>): Hypothesis {
    Hypothesis(rule, confidence, runbook, Unset)
  }

  /** The hypothesis is one that this signal calls for. */
  ghost predicate CalledFor(s: Signals, h: Hypothesis) {
    || (s.deployHit && h == ByRuleOnly("deploy", 0.8, Some("rollback-deploy")))
    || (Mentions(s.names, {"service_up"}) && h == ByRuleOnly("down", 0.7, Some("restart-pod")))
    || (Mentions(s.names, {"memory"}) && h == ByRuleOnly("memory", 0.65, Some("restart-pod")))
    || (Mentions(s.names, {"cpu", "disk", "saturation"}) && h == ByRuleOnly("saturation", 0.6, Some("scale-service")))
    || (Mentions(s.names, {"latency", "duration", "queue_depth", "request_rate"}) &&
        h == ByRuleOnly("latency", 0.55, Some("scale-service")))
    || (Mentions(s.names, {"db_pool"}) && h == ByRuleOnly("pool", 0.62, Some("restart-pod")))
    || (s.errors && h == ByRuleOnly("errors", 0.58, Some("restart-pod")))
  }

  /** No signal calls for anything. */
  ghost predicate Silent(s: Signals) {
    !s.deployHit && !s.errors && !Mentions(s.names, {"service_up", "memory", "cpu", "disk", "saturation", "latency",
      "duration", "queue_depth", "request_rate", "db_pool"})
  }

  lemma FiredAdds(hyps: seq<Hypothesis>, fires: bool, rule: string, confidence: real, runbook: string, h: Hypothesis)
    ensures
      var more := IfFires(hyps, fires, rule, confidence, runbook);
      && (h in more <==> h in hyps || (fires && h == ByRuleOnly(rule, confidence, Some(runbook))))
      && (more == [] <==> hyps == [] && !fires)
  {
  }

  /** What is proposed is exactly what the signals call for, or one hypothesis without a runbook if they are silent. */
  lemma ProposalsFollowSignals(s: Signals, h: Hypothesis)
    ensures h in Propose(s) <==> CalledFor(s, h) || (Silent(s) && h == ByRuleOnly("undetermined", 0.2, None))
  {
    var busy, slow := ["cpu", "disk", "saturation"], ["latency", "duration", "queue_depth", "request_rate"];
    var up, mem, pool := HasToken(s.names, "service_up"), HasToken(s.names, "memory"), HasToken(s.names, "db_pool");
    var h1 := IfFires([], s.deployHit, "deploy", 0.8, "rollback-deploy");
    var h2 := IfFires(h1, up, "down", 0.7, "restart-pod");
    var h3 := IfFires(h2, mem, "memory", 0.65, "restart-pod");
    var h4 := IfFires(h3, HasAnyToken(s.names, busy), "saturation", 0.6, "scale-service");
    var h5 := IfFires(h4, HasAnyToken(s.names, slow), "latency", 0.55, "scale-service");
    var h6 := IfFires(h5, pool, "pool", 0.62, "restart-pod");
    FiredAdds([], s.deployHit, "deploy", 0.8, "rollback-deploy", h);
    FiredAdds(h1, up, "down", 0.7, "restart-pod", h);
    FiredAdds(h2, mem, "memory", 0.65, "restart-pod", h);
    FiredAdds(h3, HasAnyToken(s.names, busy), "saturation", 0.6, "scale-service", h);
    FiredAdds(h4, HasAnyToken(s.names, slow), "latency", 0.55, "scale-service", h);
    FiredAdds(h5, pool, "pool", 0.62, "restart-pod", h);
    FiredAdds(h6, s.errors, "errors", 0.58, "restart-pod", h);
    SignalsAreMentions(s);
  }

  lemma SignalsAreMentions(s: Signals)
    ensures HasToken(s.names, "service_up") <==> Mentions(s.names, {"service_up"})
    ensures HasToken(s.names, "memory") <==> Mentions(s.names, {"memory"})
    ensures HasToken(s.names, "db_pool") <==> Mentions(s.names, {"db_pool"})
    ensures HasAnyToken(s.names, ["cpu", "disk", "saturation"]) <==> Mentions(s.names, {"cpu", "disk", "saturation"})
    ensures HasAnyToken(s.names, ["latency", "duration", "queue_depth", "request_rate"]) <==>
      Mentions(s.names, {"latency", "duration", "queue_depth", "request_rate"})
    ensures Silent(s) <==>
      && !s.deployHit && !s.errors
      && !Mentions(s.names, {"service_up"}) && !Mentions(s.names, {"memory"}) && !Mentions(s.names, {"db_pool"})
      && !Mentions(s.names, {"cpu", "disk", "saturation"})
      && !Mentions(s.names, {"latency", "duration", "queue_depth", "request_rate"})
  {
    MentionsOne(s.names, "service_up");
    MentionsOne(s.names, "memory");
    MentionsOne(s.names, "db_pool");
    var busy, slow := ["cpu", "disk", "saturation"], ["latency", "duration", "queue_depth", "request_rate"];
    MentionsAny(s.names, busy);
    MentionsAny(s.names, slow);
    assert (set word | word in busy) == {"cpu", "disk", "saturation"};
    assert (set word | word in slow) == {"latency", "duration", "queue_depth", "request_rate"};
  }

  lemma AheadIsAntisymmetric(provider: Provider, a: Placed, b: Placed)
    ensures !(Ahead(provider, a, b) && Ahead(provider, b, a))
  {
  }

  lemma HeadIsUnique(provider: Provider, xs: seq<Placed>, ys: seq<Placed>)
    requires InOrder(provider, xs) && InOrder(provider, ys) && multiset(xs) == multiset(ys) && xs != []
    ensures ys != [] && xs[0] == ys[0]
  {
    assert xs[0] in multiset(ys) && |multiset(xs)| == |multiset(ys)|;
    assert ys[0] in multiset(xs);
    var i :| 0 <= i < |ys| && ys[i] == xs[0];
    var j :| 0 <= j < |xs| && xs[j] == ys[0];
    AheadIsAntisymmetric(provider, xs[0], ys[0]);
  }

  lemma TailsAlike<T>(xs: seq<T>, ys: seq<T>)
    requires xs != [] && ys != [] && xs[0] == ys[0] && multiset(xs) == multiset(ys)
    ensures multiset(xs[1..]) == multiset(ys[1..])
  {
    assert xs == [xs[0]] + xs[1..] && ys == [ys[0]] + ys[1..];
    assert multiset(xs[1..]) == multiset(xs) - multiset{xs[0]};
    assert multiset(ys[1..]) == multiset(ys) - multiset{ys[0]};
  }

  /** There is only one stable sort: the ranking is determined by hypotheses and track records. */
  lemma {:induction false} RankingIsUnique(provider: Provider, xs: seq<Placed>, ys: seq<Placed>)
    requires InOrder(provider, xs) && InOrder(provider, ys) && multiset(xs) == multiset(ys)
    ensures xs == ys
  {
    if xs == [] {
      assert |multiset(ys)| == 0;
    } else {
      HeadIsUnique(provider, xs, ys);
      TailsAlike(xs, ys);
      RankingIsUnique(provider, xs[1..], ys[1..]);
      assert xs == [xs[0]] + xs[1..] && ys == [ys[0]] + ys[1..];
    }
  }

  lemma LeadIsAhead(provider: Provider, a: Placed, b: Placed)
    requires a.hyp.confidence >= b.hyp.confidence + 0.15
    ensures Ahead(provider, a, b)
  {
    var ra, rb := Reliability(provider, a.hyp), Reliability(provider, b.hyp);
    assert 0.0 <= ra && rb <= 1.0;
  }

  /** A lead of at least the boost's weight is never overtaken, whatever the track records say. */
  lemma LeadIsNeverOvertaken(provider: Provider, hyps: seq<Hypothesis>, out: seq<Placed>, i: nat, j: nat)
    requires IsRanking(provider, hyps, out)
    requires i < |hyps| && j < |hyps| && hyps[i].confidence >= hyps[j].confidence + 0.15
    ensures exists a, b :: 0 <= a < b < |out| && out[a] == Placed(hyps[i], i) && out[b] == Placed(hyps[j], j)
  {
    assert Place(hyps)[i] in multiset(out) && Place(hyps)[j] in multiset(out);
    var a :| 0 <= a < |out| && out[a] == Placed(hyps[i], i);
    var b :| 0 <= b < |out| && out[b] == Placed(hyps[j], j);
    LeadIsAhead(provider, out[a], out[b]);
    AheadIsAntisymmetric(provider, out[a], out[b]);
  }

  /** Runbooks nobody has tried change nothing: the order is the one by rules alone. */
  lemma NoTrackRecordNoChange(provider: Provider, hyps: seq<Hypothesis>, out: seq<Placed>, plain: seq<Placed>)
    requires forall h :: h in hyps ==> Reliability(provider, h) == 0.0
    requires IsRanking(provider, hyps, out) && IsRanking(None, hyps, plain)
    ensures out == plain
  {
    forall i, j | 0 <= i < j < |out| ensures Ahead(None, out[i], out[j]) {
      assert out[i] in multiset(out) && out[j] in multiset(out);
      PlacedFrom(hyps, out[i]);
      PlacedFrom(hyps, out[j]);
    }
    RankingIsUnique(None, out, plain);
  }

  lemma PlacedFrom(hyps: seq<Hypothesis>, p: Placed)
    requires p in multiset(Place(hyps))
    ensures p.hyp in hyps
  {
    var i :| 0 <= i < |Place(hyps)| && Place(hyps)[i] == p;
  }

  /** Of two hypotheses held equally likely the one whose runbook has the better record comes first. */
  lemma BetterRecordComesFirst(record: string -> real, a: Hypothesis, b: Hypothesis)
    requires a.runbook.Some? && b.runbook.Some? && a.confidence == b.confidence <= 0.85
    requires 0.0 <= record(b.runbook.value) < record(a.runbook.value) <= 1.0
    ensures KeyAbove(Some(record), a, b)
  {
  }

  /** A boost ends at certainty: one that gets there is overtaken by nothing that was held less likely. */
  lemma NothingPassesCertainty(record: string -> real, a: Hypothesis, b: Hypothesis)
    requires a.runbook.Some? && b.confidence < a.confidence && 0.0 <= record(a.runbook.value) <= 1.0
    requires a.confidence + 0.15 * record(a.runbook.value) >= 1.0
    ensures KeyAbove(Some(record), a, b)
  {
  }

  /** Within the boost's weight a track record can decide: here the trailing hypothesis comes first. */
  lemma CloseRaceCanTurn(a: Hypothesis, b: Hypothesis)
    requires b.confidence <= a.confidence < b.confidence + 0.15 && a.confidence < 1.0
    requires a.runbook.Some? && b.runbook.Some? && a.runbook != b.runbook
    ensures exists provider: Provider :: KeyAbove(provider, b, a)
  {
    var provider: Provider := Some((r: string) => if Some(r) == b.runbook then 1.0 else 0.0);
    assert Reliability(provider, b) == 1.0 && Reliability(provider, a) == 0.0;
    assert KeyAbove(provider, b, a);
  }
}
