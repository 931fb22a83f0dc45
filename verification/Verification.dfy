/** The check made after a fix: every metric that fired is queried again and must be back to normal. */
module Verification {
  import opened Prelude
  import opened Detection

  datatype Member = Member(isMetric: bool, name: string, value: Option<real>, labels: map<string, string>)

  /** What a query returns for a metric, scoped to a service if there is one; None when it fails. */
  type Query = (string, Option<string>) -> Option<real>

  /** The metrics that fired: logs, traces and events without a value are not asked about. */
  predicate Fired(m: Member) {
    m.isMetric && m.value.Some?
  }

  function LabelOf(m: Member): Option<string> {
    if Label(m.labels, "service") != "" then Some(Label(m.labels, "service"))
    else if Label(m.labels, "job") != "" then Some(Label(m.labels, "job"))
    else None
  }

  predicate Bears(m: Member, key: string) {
    key in m.labels && m.labels[key] != ""
  }

  /** Member `n` is the first to name a service, by that label or else by its job. */
  predicate NamedBy(members: seq<Member>, n: nat, scope: string) {
    && n < |members| && NoLabel(members[..n])
    && if Bears(members[n], "service") then scope == members[n].labels["service"]
       else Bears(members[n], "job") && scope == members[n].labels["job"]
  }

  ghost predicate IsScope(members: seq<Member>, scope: Option<string>) {
    if scope.None? then NoLabel(members) else exists n: nat :: NamedBy(members, n, scope.value)
  }

  predicate NoLabel(members: seq<Member>) {
    forall i :: 0 <= i < |members| ==> !Bears(members[i], "service") && !Bears(members[i], "job")
  }

  function BaselineFor(baselines: map<string, Baseline>, name: string): Option<Baseline> {
    if name in baselines then Some(baselines[name]) else None
  }

  method FindScope(members: seq<Member>) returns (scope: Option<string>)
    ensures IsScope(members, scope)
  {
    scope := None;
    var i := 0;
    while i < |members|
      invariant 0 <= i <= |members| && scope.None? && NoLabel(members[..i])
    {
      scope := LabelOf(members[i]);
      if scope.Some? {
        assert NamedBy(members, i, scope.value);
        return;
      }
      i := i + 1;
    }
    assert NoLabel(members[..i]) && members[..i] == members;
  }

  method FiringNames(members: seq<Member>) returns (names: seq<string>)
    ensures forall name :: name in names <==> exists m :: m in members && Fired(m) && m.name == name
  {
    names := [];
    var i := 0;
    while i < |members|
      invariant 0 <= i <= |members|
      invariant forall name :: name in names <==> exists j :: 0 <= j < i && Fired(members[j]) && members[j].name == name
    {
      if Fired(members[i]) {
        names := names + [members[i].name];
      }
      i := i + 1;
    }
  }

  /** All metrics that fired have recovered; vacuously so when none carries a value. */
  method MetricHealthy(members: seq<Member>, baselines: map<string, Baseline>, p: Policy, z: real, query: Query)
    returns (healthy: bool, scope: Option<string>)
    ensures IsScope(members, scope)
    ensures healthy <==> forall m :: m in members && m.isMetric && m.value.Some? ==>
      Recovered(p, z, m.name, BaselineFor(baselines, m.name), query(m.name, scope))
  {
    var names := FiringNames(members);
    scope := FindScope(members);
    var i := 0;
    while i < |names|
      invariant 0 <= i <= |names|
      invariant forall j :: 0 <= j < i ==>
        Recovered(p, z, names[j], BaselineFor(baselines, names[j]), query(names[j], scope))
    {
      if !Recovered(p, z, names[i], BaselineFor(baselines, names[i]), query(names[i], scope)) {
        assert names[i] in names;
        return false, scope;
      }
      i := i + 1;
    }
    healthy := true;
    assert forall m :: m in members && Fired(m) ==> m.name in names;
  }

  /**
   A metric that fired keeps the situation unhealthy when its query fails, when it reads a value above the level of
   its kind, and when only the score counts and no baseline is attached.
   */
  lemma UnhealthyAboveLevel(m: Member, baselines: map<string, Baseline>, p: Policy, z: real, query: Query,
    scope: Option<string>)
    requires
      var read, kind := query(m.name, scope), Classify(m.name);
      || read.None?
      || (p.enabled && kind.Ratio? && read.value > p.ratio)
      || (p.enabled && kind.Latency? && read.value > p.latencyCeiling)
      || (p.enabled && kind.Saturation? &&
          read.value > if PercentName(Lower(m.name)) then p.saturationPercent else p.saturationRatio)
      || ((!p.enabled || kind.Default?) && m.name !in baselines)
    ensures !Recovered(p, z, m.name, BaselineFor(baselines, m.name), query(m.name, scope))
  {
    var read := query(m.name, scope);
    if read.Some? && p.enabled && !Classify(m.name).Default? {
      LevelsDecide(p, z, m.name, [0.0], BaselineFor(baselines, m.name), read.value);
    }
  }

  /** The verdict of the detector on a metric's current value, against the window its baseline came from. */
  predicate WouldFire(p: Policy, z: real, name: string, windows: map<string, seq<real>>, v: real)
    requires name in windows && windows[name] != []
  {
    Flagged(p, z, name, windows[name], v)
  }

  /**
   For thresholds below six: a situation whose baselines come from its metrics' own windows is found
   healthy exactly when the detector would flag none of the values the check reads - but for a latency
   that fell far below its baseline, which only the detector minds.
   */
  lemma HealthyIffNothingWouldFire(members: seq<Member>, baselines: map<string, Baseline>, windows: map<string,
    seq<real>>,
    p: Policy, z: real, query: Query, scope: Option<string>)
    requires 0.0 <= z < FLAT_STEP_SCORE
    requires forall m :: m in members && Fired(m) ==>
      && m.name in windows && windows[m.name] != [] && query(m.name, scope).Some?
      && BaselineFor(baselines, m.name) == Some(BaselineOf(windows[m.name]))
      && !FarBelow(p, z, m.name, windows[m.name], query(m.name, scope).value)
    ensures
      (forall m :: m in members && Fired(m) ==>
        Recovered(p, z, m.name, BaselineFor(baselines, m.name), query(m.name, scope)))
      <==> (forall m :: m in members && Fired(m) ==> !WouldFire(p, z, m.name, windows, query(m.name, scope).value))
  {
    forall m | m in members && Fired(m)
      ensures Recovered(p, z, m.name, BaselineFor(baselines, m.name), query(m.name, scope)) <==>
        !WouldFire(p, z, m.name, windows, query(m.name, scope).value)
    {
      VerdictsAgree(p, z, m.name, windows[m.name], query(m.name, scope).value);
    }
  }

  /** A latency whose score is past the threshold only because it dropped. */
  predicate FarBelow(p: Policy, z: real, name: string, window: seq<real>, v: real)
    requires window != []
  {
    p.enabled && Classify(name).Latency? && v <= p.latencyCeiling &&
    Statistics.Mad(window) > 0.0 && v < Statistics.Median(window) && Score(window, v) > z
  }

  lemma VerdictsAgree(p: Policy, z: real, name: string, window: seq<real>, v: real)
    requires window != [] && 0.0 <= z < FLAT_STEP_SCORE
    ensures (Recovered(p, z, name, Some(BaselineOf(window)), Some(v)) <==> !Flagged(p, z, name, window, v))
      <==> !FarBelow(p, z, name, window, v)
  {
    if ScoreOnly(p, name) {
      ScoreOnlyVerdictsAgree(p, z, name, window, v);
    } else if Classify(name).Latency? {
      LatencyVerdictsAgree(p, z, name, window, v);
    } else {
      LevelVerdictsAgree(p, z, name, window, Some(BaselineOf(window)), v);
    }
  }
}
