/**
 Running a playbook: the gates before it, the Kubernetes steps, the check, and the way back.

 Only replica counts are modelled of the cluster. Every API call may go through, be refused, or take
 effect and still report an error; the fate of each call is an input, and so are the answers of the
 role check, the rehearsal, the approver and the health check.
*/
module Remediation {
  import opened Prelude

  datatype Target = Target(namespace: string, deployment: string)

  /** A resource ceiling: absent, written in a way that does not parse, or a number. */
  datatype Limit = Unset | Unparseable | Limit(amount: real)

  datatype Step =
    | Restart
    | Scale(delta: Option<int>)
    | RollbackDeploy
    | Wait
    | PatchLimits(cpu: Limit, mem: Limit)
    | RollbackToRevision(revision: Option<int>)
    | PatchProbe(probeNamed: bool, initialDelay: Option<int>, period: Option<int>, timeout: Option<int>,
      failureThreshold: Option<int>)

  datatype HitlMode = Auto | Hitl | Disabled

  datatype Playbook = Playbook(id: string, hitlMode: HitlMode, reversible: bool, steps: seq<Step>,
    rollbackSteps: seq<Step>)

  const MAX_REPLICAS: int := 10
  const MIN_REPLICAS: int := 1

  // ---------------------------------------------------------------- the denylist

  const SCALE_TAKEDOWN_DELTA: int := -10
  const MIN_CPU_MILLICORES: real := 10.0
  const MIN_MEM_MEBIBYTES: real := 16.0
  const MIN_FAILURE_THRESHOLD: int := 1
  const MIN_PROBE_PERIOD: int := 1

  function Amount(l: Limit): Option<real> {
    match l
    case Unset => None
    case Unparseable => Some(-1.0)
    case Limit(a) => Some(a)
  }

  predicate BelowReal(value: Option<real>, floor: real) {
    value.Some? && value.value < floor
  }

  predicate BelowInt(value: Option<int>, floor: int) {
    value.Some? && value.value < floor
  }

  function StepDenied(step: Step): Option<string> {
    match step
    case Scale(delta) =>
      if delta.Some? && delta.value <= SCALE_TAKEDOWN_DELTA then Some("denied:unsafe-scale") else None
    case PatchLimits(cpu, mem) =>
      if BelowReal(Amount(cpu), MIN_CPU_MILLICORES) || BelowReal(Amount(mem), MIN_MEM_MEBIBYTES) then
        Some("denied:unsafe-limits")
      else if cpu.Unset? && mem.Unset? then Some("denied:unsafe-limits")
      else None
    case PatchProbe(named, initialDelay, period, timeout, failureThreshold) =>
      if !named then Some("denied:unsafe-probe")
      else if BelowInt(failureThreshold, MIN_FAILURE_THRESHOLD) then Some("denied:unsafe-probe")
      else if BelowInt(period, MIN_PROBE_PERIOD) || BelowInt(timeout, MIN_PROBE_PERIOD) then Some("denied:unsafe-probe")
      else if BelowInt(initialDelay, 0) then Some("denied:unsafe-probe")
      else None
    case RollbackToRevision(revision) =>
      if revision.None? then Some("denied:unsafe-revision") else None
    case _ => None
  }

  method DenylistReason(p: Playbook) returns (reason: Option<string>)
    ensures reason == DeniedFor(p.steps + p.rollbackSteps)
  {
    var all := p.steps + p.rollbackSteps;
    var i := 0;
    while i < |all|
      invariant 0 <= i <= |all| && DeniedFor(all) == DeniedFor(all[i..])
    {
      if StepDenied(all[i]).Some? {
        return StepDenied(all[i]);
      }
      i := i + 1;
    }
    return None;
  }

  /** The reason of the first dangerous step. */
  function DeniedFor(steps: seq<Step>): Option<string> {
    if steps == [] then None
    else if StepDenied(steps[0]).Some? then StepDenied(steps[0])
    else DeniedFor(steps[1..])
  }

  // ---------------------------------------------------------------- steps on the cluster

  datatype Fate = Through | Refused | AppliedButFailed

  /** The fates of the (at most two) calls a step makes: the read, if any, and the write. */
  datatype StepFate = StepFate(read: Fate, write: Fate)

  /** Replica counts per deployment, and the counts recorded before a scaling. */
  datatype World = World(replicas: map<Target, nat>, preScale: map<Target, int>)

  /** `replicas or 1`: an absent count and a zero both read as one. */
  function OrOne(replicas: nat): int {
    if replicas == 0 then 1 else replicas
  }

  function Distance(a: int, b: int): nat {
    if a < b then b - a else a - b
  }

  /** The allowed count nearest to the one asked for. */
  function Clamp(n: int): (r: int)
    ensures 1 <= r <= 10
    ensures forall m :: 1 <= m <= 10 ==> Distance(r, n) <= Distance(m, n)
  {
    Max(MIN_REPLICAS, Min(MAX_REPLICAS, n))
  }

  function SetReplicas(w: World, t: Target, n: int, fate: Fate): (World, bool) {
    if t !in w.replicas || fate.Refused? || n < 0 then (w, false)
    else (w.(replicas := w.replicas[t := n]), fate.Through?)
  }

  /** One step; false means an exception left the step. */
  function Dispatch(w: World, t: Target, step: Step, rollingBack: bool, fate: StepFate): (World, bool) {
    match step
    case Scale(delta) =>
      if rollingBack && t in w.preScale then SetReplicas(w, t, w.preScale[t], fate.write)
      else if t !in w.replicas || !fate.read.Through? then (w, false)
      else
        var current := OrOne(w.replicas[t]);
        var recorded := if rollingBack || t in w.preScale then w else w.(preScale := w.preScale[t := current]);
        SetReplicas(recorded, t, Clamp(current + if delta.Some? then delta.value else 0), fate.write)
    case Wait => (w, true)
    case RollbackToRevision(_) => (w, fate.read.Through? && fate.write.Through?)
    case _ => (w, fate.write.Through?)
  }

  /** Steps in order until one fails; `fates(i)` belongs to step `i`. */
  function RunSteps(w: World, t: Target, steps: seq<Step>, rollingBack: bool, fates: nat -> StepFate): (World, bool) {
    if steps == [] then (w, true)
    else
      var last := |steps| - 1;
      var (w1, ok) := RunSteps(w, t, steps[..last], rollingBack, fates);
      if ok then Dispatch(w1, t, steps[last], rollingBack, fates(last)) else (w1, false)
  }

  function Forget(w: World, t: Target): World {
    w.(preScale := w.preScale - {t})
  }

  function Execute(w: World, t: Target, p: Playbook, fates: nat -> StepFate): (World, bool) {
    RunSteps(Forget(w, t), t, p.steps, false, fates)
  }

  function Rollback(w: World, t: Target, p: Playbook, fates: nat -> StepFate): (World, bool) {
    var (w1, ok) := RunSteps(w, t, p.rollbackSteps, true, fates);
    (Forget(w1, t), ok)
  }

  predicate HasScale(steps: seq<Step>) {
    exists i :: 0 <= i < |steps| && steps[i].Scale?
  }

  class KubernetesRemediator {
    var replicas: map<Target, nat>
    var preScale: map<Target, int>

    function View(): World
      reads this
    {
      World(replicas, preScale)
    }

    method PatchScale(t: Target, n: int, fate: Fate) returns (ok: bool)
      modifies this`replicas
      ensures (View(), ok) == SetReplicas(old(View()), t, n, fate)
    {
      if t !in replicas || fate.Refused? || n < 0 {
        return false;
      }
      replicas := replicas[t := n];
      return fate.Through?;
    }

    method DispatchStep(t: Target, step: Step, rollingBack: bool, fate: StepFate) returns (ok: bool)
      modifies this
      ensures (View(), ok) == Dispatch(old(View()), t, step, rollingBack, fate)
    {
      if step.Wait? {
        return true;
      }
      if step.Scale? {
        if rollingBack && t in preScale {
          ok := PatchScale(t, preScale[t], fate.write);
          return;
        }
        if t !in replicas || !fate.read.Through? {
          return false;
        }
        var current := OrOne(replicas[t]);
        if !rollingBack && t !in preScale {
          preScale := preScale[t := current];
        }
        var desired := Clamp(current + if step.delta.Some? then step.delta.value else 0);
        ok := PatchScale(t, desired, fate.write);
        return;
      }
      if step.RollbackToRevision? && !fate.read.Through? {
        return false;
      }
      return fate.write.Through?;
    }

    method RunPlan(t: Target, steps: seq<Step>, rollingBack: bool, fates: nat -> StepFate) returns (ok: bool)
      modifies this
      ensures (View(), ok) == RunSteps(old(View()), t, steps, rollingBack, fates)
    {
      var i := 0;
      ok := true;
      while i < |steps|
        invariant 0 <= i <= |steps| && ok
        invariant (View(), ok) == RunSteps(old(View()), t, steps[..i], rollingBack, fates)
      {
        assert steps[..i + 1][..i] == steps[..i];
        ok := DispatchStep(t, steps[i], rollingBack, fates(i));
        if !ok {
          FailureStops(old(View()), t, steps, rollingBack, fates, i + 1);
          return false;
        }
        i := i + 1;
      }
      assert steps[..i] == steps;
    }

    method ExecutePlan(t: Target, p: Playbook, fates: nat -> StepFate) returns (ok: bool)
      modifies this
      ensures (View(), ok) == Execute(old(View()), t, p, fates)
    {
      preScale := preScale - {t};
      ok := RunPlan(t, p.steps, false, fates);
    }

    method RollbackPlan(t: Target, p: Playbook, fates: nat -> StepFate) returns (ok: bool)
      modifies this
      ensures (View(), ok) == Rollback(old(View()), t, p, fates)
    {
      ok := RunPlan(t, p.rollbackSteps, true, fates);
      preScale := preScale - {t};
    }
  }

  lemma {:induction false} FailureStops(w: World, t: Target, steps: seq<Step>, rollingBack: bool,
    fates: nat -> StepFate, n: nat)
    requires n <= |steps| && !RunSteps(w, t, steps[..n], rollingBack, fates).1
    ensures RunSteps(w, t, steps, rollingBack, fates) == RunSteps(w, t, steps[..n], rollingBack, fates)
    decreases |steps|
  {
    if n < |steps| {
      var last := |steps| - 1;
      assert steps[..last][..n] == steps[..n];
      FailureStops(w, t, steps[..last], rollingBack, fates, n);
    } else {
      assert steps[..n] == steps;
    }
  }

  // ---------------------------------------------------------------- what steps do to replica counts

  /** Other deployments are untouched, and no deployment appears or disappears. */
  lemma {:induction false} OnlyTheTarget(w: World, t: Target, steps: seq<Step>, rollingBack: bool,
    fates: nat -> StepFate, other: Target)
    requires other != t
    ensures
      var w' := RunSteps(w, t, steps, rollingBack, fates).0;
      && w'.replicas.Keys == w.replicas.Keys
      && (other in w.replicas ==> w'.replicas[other] == w.replicas[other])
      && (other in w'.preScale <==> other in w.preScale)
      && (other in w.preScale ==> w'.preScale[other] == w.preScale[other])
  {
    if steps != [] {
      OnlyTheTarget(w, t, steps[..|steps| - 1], rollingBack, fates, other);
    }
  }

  lemma HasScaleUpTo(steps: seq<Step>)
    requires steps != []
    ensures HasScale(steps) <==> HasScale(steps[..|steps| - 1]) || steps[|steps| - 1].Scale?
  {
    var last := |steps| - 1;
    assert forall i :: 0 <= i < last ==> steps[..last][i] == steps[i];
    if HasScale(steps) && !steps[last].Scale? {
      var i :| 0 <= i < |steps| && steps[i].Scale?;
      assert steps[..last][i].Scale?;
    }
  }

  /** A forward run scales only into 1..10, records the first count it saw, and scales iff a step says so. */
  lemma {:induction false} ForwardRecords(w: World, t: Target, steps: seq<Step>, fates: nat -> StepFate)
    requires t in w.replicas && t !in w.preScale
    ensures
      var (w', ok) := RunSteps(w, t, steps, false, fates);
      && t in w'.replicas
      && (t in w'.preScale ==> w'.preScale[t] == OrOne(w.replicas[t]))
      && (t !in w'.preScale ==> w'.replicas[t] == w.replicas[t])
      && (w'.replicas[t] == w.replicas[t] || MIN_REPLICAS <= w'.replicas[t] <= MAX_REPLICAS)
      && (ok ==> (t in w'.preScale <==> HasScale(steps)))
      && (ok && HasScale(steps) ==> MIN_REPLICAS <= w'.replicas[t] <= MAX_REPLICAS)
  {
    if steps != [] {
      var last := |steps| - 1;
      ForwardRecords(w, t, steps[..last], fates);
      HasScaleUpTo(steps);
    }
  }

  /** A rollback puts back the recorded count whenever it scales at all. */
  lemma {:induction false} RollbackRestores(w: World, t: Target, steps: seq<Step>, fates: nat -> StepFate)
    requires t in w.replicas && t in w.preScale && w.preScale[t] >= 1
    ensures
      var (w', ok) := RunSteps(w, t, steps, true, fates);
      && t in w'.replicas && w'.preScale == w.preScale
      && (w'.replicas[t] == w.replicas[t] || w'.replicas[t] == w.preScale[t])
      && (ok && HasScale(steps) ==> w'.replicas[t] == w.preScale[t])
  {
    if steps != [] {
      var last := |steps| - 1;
      RollbackRestores(w, t, steps[..last], fates);
      HasScaleUpTo(steps);
    }
  }

  /** The calls a step makes went through: none for a wait, a read too for a scaling by a delta and for a revision. */
  predicate CallsThrough(step: Step, putBack: bool, fate: StepFate) {
    && ((step.Scale? && !putBack) || step.RollbackToRevision? ==> fate.read.Through?)
    && (!step.Wait? ==> fate.write.Through?)
  }

  ghost predicate Scalable(w: World, t: Target) {
    t in w.replicas && (t in w.preScale ==> w.preScale[t] >= 1)
  }

  lemma StepGoesThroughIff(w: World, t: Target, step: Step, rollingBack: bool, fate: StepFate)
    requires Scalable(w, t)
    ensures
      var (w', ok) := Dispatch(w, t, step, rollingBack, fate);
      && Scalable(w', t) && (rollingBack ==> w'.preScale == w.preScale)
      && (ok <==> CallsThrough(step, rollingBack && t in w.preScale, fate))
  {
  }

  /** The first `n` steps made only calls that went through. */
  ghost predicate AllThrough(steps: seq<Step>, n: nat, putBack: bool, fates: nat -> StepFate) {
    n <= |steps| && forall i: nat :: i < n ==> CallsThrough(steps[i], putBack, fates(i))
  }

  /** A run of steps on a deployment that exists goes through exactly if every call it makes does. */
  lemma {:induction false} GoesThroughIff(w: World, t: Target, steps: seq<Step>, n: nat, rollingBack: bool,
    fates: nat -> StepFate)
    requires n <= |steps| && Scalable(w, t)
    ensures
      var (w', ok) := RunSteps(w, t, steps[..n], rollingBack, fates);
      && Scalable(w', t) && (rollingBack ==> w'.preScale == w.preScale)
      && (ok <==> AllThrough(steps, n, rollingBack && t in w.preScale, fates))
  {
    if n > 0 {
      var (w1, ok) := RunSteps(w, t, steps[..n - 1], rollingBack, fates);
      GoesThroughIff(w, t, steps, n - 1, rollingBack, fates);
      StepGoesThroughIff(w1, t, steps[n - 1], rollingBack, fates(n - 1));
      assert steps[..n][..n - 1] == steps[..n - 1];
    }
  }

  /**
   A scaling that goes through moves against its delta exactly in two cases: it takes a deployment of more than ten
   replicas down although nothing less was asked for, or brings one of none up although nothing more was.
   */
  lemma ScalesAgainstDeltaIff(w: World, t: Target, delta: Option<int>, fate: StepFate)
    requires t in w.replicas && fate == StepFate(Through, Through)
    ensures
      var (w', ok) := Dispatch(w, t, Scale(delta), false, fate);
      var count, asked := w.replicas[t], if delta.Some? then delta.value else 0;
      && ok && t in w'.replicas && 1 <= w'.replicas[t] <= 10
      && ((asked >= 0 && w'.replicas[t] < count) || (asked <= 0 && w'.replicas[t] > count) <==>
            (asked >= 0 && count > 10) || (asked <= 0 && count == 0))
  {
  }

  /**
   Once its write arrives, even if that reports an error, the count is the allowed one nearest to that asked for, an
   absent or zero count taken for one; and as long as nothing arrives it stays.
   */
  lemma ScalesToNearest(w: World, t: Target, delta: Option<int>, fate: StepFate, m: int)
    requires t in w.replicas && 1 <= m <= 10
    ensures
      var w' := Dispatch(w, t, Scale(delta), false, fate).0;
      var asked := Max(1, w.replicas[t]) + if delta.Some? then delta.value else 0;
      && t in w'.replicas
      && if fate.read.Through? && !fate.write.Refused?
         then 1 <= w'.replicas[t] <= 10 && Distance(w'.replicas[t], asked) <= Distance(m, asked)
         else w'.replicas[t] == w.replicas[t]
  {
  }

  // ---------------------------------------------------------------- the gates

  datatype Result = Success | Failure | RolledBack

  datatype Decision = Approved | Rejected | Pending | Lapsed

  /** The answers the gates get; an approval may still be pending at the timeout, or have lapsed before it. */
  datatype Answers = Answers(rbac: bool, rehearsed: bool, decision: Decision, healthy: bool)

  datatype Effect =
    | Rehearsed
    | AskedApproval
    | ExpiredApproval
    | Executed
    | CheckedHealth
    | RolledBackSteps
    | Audited(decision: string)

  datatype Outcome = Outcome(result: Result, reason: string)

  /** Everything one remediation does: the cluster afterwards, the outcome, and its effects in order. */
  datatype Remedy = Remedy(world: World, outcome: Outcome, effects: seq<Effect>)

  /** Every gate in turn; `skipApproval` waives the approval alone. The remediation stops if `stop` says so. */
  method PassGates(p: Playbook, a: Answers, skipApproval: bool) returns (stop: Option<Outcome>, effects: seq<Effect>)
    ensures (stop, effects) == Gated(p, a, skipApproval)
  {
    if p.hitlMode.Disabled? {
      return Some(Outcome(Failure, "skipped:disabled")), [Audited("skipped")];
    }
    if !p.reversible {
      return Some(Outcome(Failure, "refused:not-reversible")), [Audited("refused")];
    }
    if !a.rbac {
      return Some(Outcome(Failure, "denied:rbac")), [Audited("deny")];
    }
    var reason := DenylistReason(p);
    if reason.Some? {
      return Some(Outcome(Failure, reason.value)), [Audited("denied-unsafe")];
    }
    effects := [Rehearsed];
    assert effects == [Rehearsed] + [];
    if !a.rehearsed && (p.hitlMode.Auto? || skipApproval) {
      return Some(Outcome(Failure, "preflight-failed")), effects + [Audited("preflight-failed")];
    }
    if p.hitlMode.Hitl? && skipApproval {
      effects := effects + [Audited("quiet-approved")];
    } else if p.hitlMode.Hitl? {
      effects := effects + [AskedApproval];
      if !a.decision.Approved? {
        if a.decision.Pending? {
          effects := effects + [ExpiredApproval];
          assert effects == [Rehearsed] + [AskedApproval, ExpiredApproval];
        }
        return Some(Outcome(Failure, if a.decision.Rejected? then "aborted:rejected" else "aborted:timeout")),
          effects + [Audited("abort")];
      }
    }
    return None, effects;
  }

  method ExecuteRemediation(k8s: KubernetesRemediator, p: Playbook, t: Target, a: Answers, skipApproval: bool,
    fates: nat -> StepFate, backFates: nat -> StepFate) returns (outcome: Outcome, effects: seq<Effect>)
    modifies k8s
    ensures Remedy(k8s.View(), outcome, effects) == Remediate(old(k8s.View()), p, t, a, skipApproval, fates, backFates)
  {
    var stop;
    stop, effects := PassGates(p, a, skipApproval);
    if stop.Some? {
      return stop.value, effects;
    }
    var ok := k8s.ExecutePlan(t, p, fates);
    effects := effects + [Executed];
    if !ok {
      return Outcome(Failure, "execute-failed"), effects + [Audited("execute-failed")];
    }
    effects := effects + [CheckedHealth];
    if a.healthy {
      return Outcome(Success, "healthy"), effects + [Audited("allow")];
    }
    if p.rollbackSteps == [] {
      return Outcome(Failure, "unhealthy:no-rollback"), effects + [Audited("unhealthy-no-rollback")];
    }
    ok := k8s.RollbackPlan(t, p, backFates);
    effects := effects + [RolledBackSteps];
    if !ok {
      return Outcome(Failure, "unhealthy:rollback-failed"), effects + [Audited("rollback-failed")];
    }
    return Outcome(RolledBack, "unhealthy:rolled-back"), effects + [Audited("rolled-back")];
  }

  // ---- the same, gate by gate

  /** Why the playbook may not run at all, with the audit entry. */
  function Barred(p: Playbook, a: Answers): Option<(string, string)> {
    if p.hitlMode.Disabled? then Some(("skipped:disabled", "skipped"))
    else if !p.reversible then Some(("refused:not-reversible", "refused"))
    else if !a.rbac then Some(("denied:rbac", "deny"))
    else if DeniedFor(p.steps + p.rollbackSteps).Some? then
      Some((DeniedFor(p.steps + p.rollbackSteps).value, "denied-unsafe"))
    else None
  }

  /** Who, if anyone, has to be asked, and what was said: the effects, and a reason to stop. */
  function Consent(p: Playbook, a: Answers, skipApproval: bool): (seq<Effect>, Option<(string, string)>) {
    if !a.rehearsed && (p.hitlMode.Auto? || skipApproval) then ([], Some(("preflight-failed", "preflight-failed")))
    else if !p.hitlMode.Hitl? then ([], None)
    else if skipApproval then ([Audited("quiet-approved")], None)
    else
      match a.decision
      case Approved => ([AskedApproval], None)
      case Rejected => ([AskedApproval], Some(("aborted:rejected", "abort")))
      case Pending => ([AskedApproval, ExpiredApproval], Some(("aborted:timeout", "abort")))
      case Lapsed => ([AskedApproval], Some(("aborted:timeout", "abort")))
  }

  /** All gates: the outcome to stop with, if any, and what was done on the way. */
  function Gated(p: Playbook, a: Answers, skipApproval: bool): (Option<Outcome>, seq<Effect>) {
    if Barred(p, a).Some? then (Some(Outcome(Failure, Barred(p, a).value.0)), [Audited(Barred(p, a).value.1)])
    else
      var (asked, stop) := Consent(p, a, skipApproval);
      if stop.Some? then (Some(Outcome(Failure, stop.value.0)), [Rehearsed] + asked + [Audited(stop.value.1)])
      else (None, [Rehearsed] + asked)
  }

  function Remediate(w: World, p: Playbook, t: Target, a: Answers, skipApproval: bool,
    fates: nat -> StepFate, backFates: nat -> StepFate): Remedy
  {
    var (stop, asked) := Gated(p, a, skipApproval);
    if stop.Some? then Remedy(w, stop.value, asked)
    else
      var (w1, ok) := Execute(w, t, p, fates);
      var done := asked + [Executed];
      if !ok then Remedy(w1, Outcome(Failure, "execute-failed"), done + [Audited("execute-failed")])
      else if a.healthy then Remedy(w1, Outcome(Success, "healthy"), done + [CheckedHealth] + [Audited("allow")])
      else if p.rollbackSteps == [] then
        Remedy(w1, Outcome(Failure, "unhealthy:no-rollback"),
          done + [CheckedHealth] + [Audited("unhealthy-no-rollback")])
      else
        var (w2, undone) := Rollback(w1, t, p, backFates);
        var tried := done + [CheckedHealth] + [RolledBackSteps];
        if undone then Remedy(w2, Outcome(RolledBack, "unhealthy:rolled-back"), tried + [Audited("rolled-back")])
        else Remedy(w2, Outcome(Failure, "unhealthy:rollback-failed"), tried + [Audited("rollback-failed")])
  }

  /** A ceiling that is written at all is a number no lower than this. */
  predicate AtLeast(limit: Limit, floor: real) {
    !limit.Unparseable? && (limit.Limit? ==> limit.amount >= floor)
  }

  predicate Allowed(count: int) {
    1 <= count <= 10
  }

  predicate AtLeastInt(value: Option<int>, floor: int) {
    value.Some? ==> value.value >= floor
  }

  /**
   Scaling leaves some deployment of one to ten replicas running, limits starve nothing, probes stay meaningful, and
   a rollback knows its revision.
   */
  ghost predicate Harmless(step: Step) {
    match step
    case Scale(delta) => delta.None? || exists count :: Allowed(count) && count + delta.value >= 1
    case PatchLimits(cpu, mem) => !(cpu.Unset? && mem.Unset?) && AtLeast(cpu, 10.0) && AtLeast(mem, 16.0)
    case PatchProbe(named, initialDelay, period, timeout, failureThreshold) =>
      && named && AtLeastInt(initialDelay, 0) && AtLeastInt(period, 1) && AtLeastInt(timeout, 1)
      && AtLeastInt(failureThreshold, 1)
    case RollbackToRevision(revision) => revision.Some?
    case _ => true
  }

  function HarmOf(step: Step): string {
    match step
    case Scale(_) => "denied:unsafe-scale"
    case PatchLimits(_, _) => "denied:unsafe-limits"
    case PatchProbe(_, _, _, _, _) => "denied:unsafe-probe"
    case _ => "denied:unsafe-revision"
  }

  lemma DeniedIffHarmful(step: Step)
    ensures StepDenied(step) == if Harmless(step) then None else Some(HarmOf(step))
  {
    if step.Scale? && step.delta.Some? && step.delta.value > -10 {
      assert Allowed(10) && 10 + step.delta.value >= 1;
    }
  }

  /** Step `i` is the first that would do harm. */
  ghost predicate FirstHarm(steps: seq<Step>, i: int) {
    0 <= i < |steps| && !Harmless(steps[i]) && forall j :: 0 <= j < i ==> Harmless(steps[j])
  }

  /** The playbook is denied exactly if a step would do harm, and for what the first such step would do. */
  lemma {:induction false} DeniedForFirstHarm(steps: seq<Step>)
    ensures DeniedFor(steps).None? <==> forall step :: step in steps ==> Harmless(step)
    ensures DeniedFor(steps).Some? ==> exists i :: FirstHarm(steps, i) && DeniedFor(steps).value == HarmOf(steps[i])
  {
    if steps != [] {
      DeniedIffHarmful(steps[0]);
      DeniedForFirstHarm(steps[1..]);
      assert steps == [steps[0]] + steps[1..];
      if !Harmless(steps[0]) {
        assert FirstHarm(steps, 0);
      } else if DeniedFor(steps).Some? {
        var i :| FirstHarm(steps[1..], i) && DeniedFor(steps[1..]).value == HarmOf(steps[1..][i]);
        HarmShifts(steps, i);
      }
    }
  }

  lemma HarmShifts(steps: seq<Step>, i: int)
    requires steps != [] && Harmless(steps[0]) && FirstHarm(steps[1..], i)
    ensures FirstHarm(steps, i + 1) && steps[i + 1] == steps[1..][i]
  {
    forall j | 0 <= j < i + 1 ensures Harmless(steps[j]) {
      assert j > 0 ==> steps[j] == steps[1..][j - 1];
    }
  }

  /** All that must hold before anything may touch the cluster. */
  ghost predicate Cleared(p: Playbook, a: Answers, skipApproval: bool) {
    && !p.hitlMode.Disabled? && p.reversible && a.rbac
    && (forall step :: step in p.steps || step in p.rollbackSteps ==> Harmless(step))
    && (a.rehearsed || (p.hitlMode.Hitl? && !skipApproval))
    && (p.hitlMode.Hitl? && !skipApproval ==> a.decision.Approved?)
  }

  lemma NothingDenied(p: Playbook)
    ensures DeniedFor(p.steps + p.rollbackSteps).None? <==>
      forall step :: step in p.steps || step in p.rollbackSteps ==> Harmless(step)
  {
    DeniedForFirstHarm(p.steps + p.rollbackSteps);
    assert forall step :: step in p.steps + p.rollbackSteps <==> step in p.steps || step in p.rollbackSteps;
  }

  lemma ConsentGiven(p: Playbook, a: Answers, skipApproval: bool)
    ensures Consent(p, a, skipApproval).1.None? <==>
      && (a.rehearsed || (!p.hitlMode.Auto? && !skipApproval))
      && (p.hitlMode.Hitl? && !skipApproval ==> a.decision.Approved?)
  {
  }

  lemma ClearedMeansNoStop(p: Playbook, a: Answers, skipApproval: bool)
    ensures Cleared(p, a, skipApproval) <==> Barred(p, a).None? && Consent(p, a, skipApproval).1.None?
  {
    NothingDenied(p);
    ConsentGiven(p, a, skipApproval);
  }

  /** The cluster is touched exactly when every gate is cleared; otherwise the run fails and changes nothing. */
  lemma RunsOnlyWhenCleared(w: World, p: Playbook, t: Target, a: Answers, skipApproval: bool,
    fates: nat -> StepFate, backFates: nat -> StepFate)
    ensures
      var r := Remediate(w, p, t, a, skipApproval, fates, backFates);
      && (Executed in r.effects <==> Cleared(p, a, skipApproval))
      && (Executed !in r.effects ==> r.world == w && r.outcome.result == Failure)
  {
    ClearedMeansNoStop(p, a, skipApproval);
    var (stop, asked) := Gated(p, a, skipApproval);
    assert Executed !in asked;
    if stop.None? {
      assert Remediate(w, p, t, a, skipApproval, fates, backFates).effects[|asked|] == Executed;
    }
  }

  /** Nothing reaches the cluster from a playbook with a dangerous step, in the plan or in its rollback. */
  lemma OnlyHarmlessPlansRun(w: World, p: Playbook, t: Target, a: Answers, skipApproval: bool,
    fates: nat -> StepFate, backFates: nat -> StepFate)
    requires Executed in Remediate(w, p, t, a, skipApproval, fates, backFates).effects
    ensures forall step :: step in p.steps || step in p.rollbackSteps ==> Harmless(step)
  {
    RunsOnlyWhenCleared(w, p, t, a, skipApproval, fates, backFates);
  }

  function When(condition: bool, effect: Effect): seq<Effect> {
    if condition then [effect] else []
  }

  /** The playbook may be tried at all. */
  ghost predicate MayTry(p: Playbook, a: Answers) {
    && !p.hitlMode.Disabled? && p.reversible && a.rbac
    && forall step :: step in p.steps || step in p.rollbackSteps ==> Harmless(step)
  }

  /** The rehearsal failed and nobody is there to decide. */
  predicate Blocked(p: Playbook, a: Answers, skipApproval: bool) {
    !a.rehearsed && (p.hitlMode.Auto? || skipApproval)
  }

  /** What all of it comes to: how far the run got, which decides reason and audit entry. */
  datatype Course = Course(tried: bool, quiet: bool, asked: bool, run: bool, done: bool, undo: bool, undone: bool)

  ghost function CourseOf(p: Playbook, a: Answers, skipApproval: bool, ok: bool, undone: bool): Course {
    var open, hitl := MayTry(p, a) && !Blocked(p, a, skipApproval), p.hitlMode.Hitl?;
    var asked := open && hitl && !skipApproval;
    var run := open && (asked ==> a.decision.Approved?);
    var undo := run && ok && !a.healthy && p.rollbackSteps != [];
    Course(MayTry(p, a), open && hitl && skipApproval, asked, run, run && ok, undo, undo && undone)
  }

  /** Each effect, in the order in which they come, with the condition on which it is had. */
  ghost predicate Had(effects: seq<Effect>, c: Course, expired: bool, audit: string) {
    effects ==
      When(c.tried, Rehearsed) + When(c.quiet, Audited("quiet-approved")) + When(c.asked, AskedApproval) +
      When(c.asked && expired, ExpiredApproval) + When(c.run, Executed) + When(c.done, CheckedHealth) +
      When(c.undo, RolledBackSteps) + [Audited(audit)]
  }

  /** The audit entry and the reason tell where the run ended. */
  ghost predicate Told(o: Outcome, audit: string, p: Playbook, a: Answers, c: Course) {
    && (p.hitlMode.Disabled? ==> o == Outcome(Failure, "skipped:disabled") && audit == "skipped")
    && (!p.hitlMode.Disabled? && !p.reversible ==>
          o == Outcome(Failure, "refused:not-reversible") && audit == "refused")
    && (!p.hitlMode.Disabled? && p.reversible && !a.rbac ==> o == Outcome(Failure, "denied:rbac") && audit == "deny")
    && (!p.hitlMode.Disabled? && p.reversible && a.rbac && !c.tried ==>
          exists i :: FirstHarm(p.steps + p.rollbackSteps, i) &&
            o == Outcome(Failure, HarmOf((p.steps + p.rollbackSteps)[i])) && audit == "denied-unsafe")
    && (c.tried && !c.asked && !c.run ==>
          o == Outcome(Failure, "preflight-failed") && audit == "preflight-failed")
    && (c.asked && !c.run ==>
          && o == Outcome(Failure, if a.decision.Rejected? then "aborted:rejected" else "aborted:timeout")
          && audit == "abort")
    && (c.run && !c.done ==> o == Outcome(Failure, "execute-failed") && audit == "execute-failed")
    && (c.done && a.healthy ==> o == Outcome(Success, "healthy") && audit == "allow")
    && (c.done && !a.healthy && !c.undo ==>
          o == Outcome(Failure, "unhealthy:no-rollback") && audit == "unhealthy-no-rollback")
    && (c.undo && !c.undone ==> o == Outcome(Failure, "unhealthy:rollback-failed") && audit == "rollback-failed")
    && (c.undone ==> o == Outcome(RolledBack, "unhealthy:rolled-back") && audit == "rolled-back")
  }

  lemma BarredTells(p: Playbook, a: Answers, skipApproval: bool)
    ensures Barred(p, a).None? <==> MayTry(p, a)
    ensures
      var c := CourseOf(p, a, skipApproval, false, false);
      Barred(p, a).Some? ==> Told(Outcome(Failure, Barred(p, a).value.0), Barred(p, a).value.1, p, a, c)
  {
    NothingDenied(p);
    DeniedForFirstHarm(p.steps + p.rollbackSteps);
  }

  lemma StopTells(w: World, p: Playbook, t: Target, a: Answers, skipApproval: bool, fates: nat -> StepFate,
    backFates: nat -> StepFate, c: Course)
    requires c == CourseOf(p, a, skipApproval, false, false) && !c.run
    ensures
      var r := Remediate(w, p, t, a, skipApproval, fates, backFates);
      exists audit :: Had(r.effects, c, a.decision.Pending?, audit) && Told(r.outcome, audit, p, a, c)
  {
    BarredTells(p, a, skipApproval);
    var r := Remediate(w, p, t, a, skipApproval, fates, backFates);
    var audit := if Barred(p, a).Some? then Barred(p, a).value.1 else Consent(p, a, skipApproval).1.value.1;
    assert Had(r.effects, c, a.decision.Pending?, audit);
  }

  lemma GatesPassed(p: Playbook, a: Answers, skipApproval: bool, c: Course, ok: bool, undone: bool)
    requires c == CourseOf(p, a, skipApproval, ok, undone) && c.run
    ensures Gated(p, a, skipApproval).0.None?
    ensures Gated(p, a, skipApproval).1 ==
      When(c.tried, Rehearsed) + When(c.quiet, Audited("quiet-approved")) + When(c.asked, AskedApproval) +
      When(c.asked && a.decision.Pending?, ExpiredApproval)
  {
    BarredTells(p, a, skipApproval);
  }

  function AuditOf(c: Course, healthy: bool): string {
    if !c.done then "execute-failed"
    else if healthy then "allow"
    else if !c.undo then "unhealthy-no-rollback"
    else if c.undone then "rolled-back"
    else "rollback-failed"
  }

  lemma RunTells(w: World, p: Playbook, t: Target, a: Answers, skipApproval: bool, fates: nat -> StepFate,
    backFates: nat -> StepFate, c: Course)
    requires c == CourseOf(p, a, skipApproval, Execute(w, t, p, fates).1,
               Rollback(Execute(w, t, p, fates).0, t, p, backFates).1)
    requires c.run
    ensures
      var r := Remediate(w, p, t, a, skipApproval, fates, backFates);
      && r.effects == Gated(p, a, skipApproval).1 + When(c.run, Executed) + When(c.done, CheckedHealth) +
        When(c.undo, RolledBackSteps) + [Audited(AuditOf(c, a.healthy))]
      && Told(r.outcome, AuditOf(c, a.healthy), p, a, c)
  {
    var (w1, ok) := Execute(w, t, p, fates);
    var (w2, undone) := Rollback(w1, t, p, backFates);
    GatesPassed(p, a, skipApproval, c, ok, undone);
  }

  /** The effects of a remediation in their order, each with its exact condition; and what is reported. */
  lemma EffectsAndReasons(w: World, p: Playbook, t: Target, a: Answers, skipApproval: bool, fates: nat -> StepFate,
    backFates: nat -> StepFate)
    ensures
      var r := Remediate(w, p, t, a, skipApproval, fates, backFates);
      var (w1, ok) := Execute(w, t, p, fates);
      var c := CourseOf(p, a, skipApproval, ok, Rollback(w1, t, p, backFates).1);
      exists audit :: Had(r.effects, c, a.decision.Pending?, audit) && Told(r.outcome, audit, p, a, c)
  {
    var (w1, ok) := Execute(w, t, p, fates);
    var c := CourseOf(p, a, skipApproval, ok, Rollback(w1, t, p, backFates).1);
    if c.run {
      RunTells(w, p, t, a, skipApproval, fates, backFates, c);
      GatesPassed(p, a, skipApproval, c, ok, Rollback(w1, t, p, backFates).1);
      assert Had(Remediate(w, p, t, a, skipApproval, fates, backFates).effects, c, a.decision.Pending?,
          AuditOf(c, a.healthy));
    } else {
      StopTells(w, p, t, a, skipApproval, fates, backFates, c);
    }
  }

  /** The outcome tells what happened: success was seen healthy, rolled-back was really undone. */
  lemma OutcomeIsTrue(w: World, p: Playbook, t: Target, a: Answers, skipApproval: bool,
    fates: nat -> StepFate, backFates: nat -> StepFate)
    ensures
      var r := Remediate(w, p, t, a, skipApproval, fates, backFates);
      var (w1, ok) := Execute(w, t, p, fates);
      && (r.outcome.result.Success? <==> Cleared(p, a, skipApproval) && ok && a.healthy)
      && (r.outcome.result.RolledBack? <==>
            Cleared(p, a, skipApproval) && ok && !a.healthy && p.rollbackSteps != [] && Rollback(w1, t, p, backFates).1)
  {
    ClearedMeansNoStop(p, a, skipApproval);
  }

  // ---------------------------------------------------------------- sequences of remediations

  /** One remediation of a sequence. */
  datatype Job = Job(playbook: Playbook, target: Target, answers: Answers, skipApproval: bool,
    fates: nat -> StepFate, backFates: nat -> StepFate)

  function RemedyOf(w: World, j: Job): Remedy {
    Remediate(w, j.playbook, j.target, j.answers, j.skipApproval, j.fates, j.backFates)
  }

  function After(w: World, jobs: seq<Job>): World {
    if jobs == [] then w else RemedyOf(After(w, jobs[..|jobs| - 1]), jobs[|jobs| - 1]).world
  }

  /** A remediation touches its own deployment only. */
  lemma OthersKeepTheirCount(w: World, j: Job, other: Target)
    requires other != j.target
    ensures
      var w' := RemedyOf(w, j).world;
      && w'.replicas.Keys == w.replicas.Keys
      && (other in w.replicas ==> w'.replicas[other] == w.replicas[other])
  {
    OnlyTheTarget(Forget(w, j.target), j.target, j.playbook.steps, false, j.fates, other);
    var w1 := Execute(w, j.target, j.playbook, j.fates).0;
    OnlyTheTarget(w1, j.target, j.playbook.rollbackSteps, true, j.backFates, other);
  }

  /** Where these steps take a count that is not recorded anywhere: each scaling is clamped and builds on the last. */
  function Walk(count: nat, steps: seq<Step>): nat {
    if steps == [] then count
    else
      var before, last := Walk(count, steps[..|steps| - 1]), steps[|steps| - 1];
      if last.Scale? then Clamp(OrOne(before) + if last.delta.Some? then last.delta.value else 0) else before
  }

  /** Steps that all go through walk the count, unless a rollback finds a count to put back. */
  lemma {:induction false} StepsWalk(w: World, t: Target, steps: seq<Step>, rollingBack: bool, fates: nat -> StepFate)
    requires t in w.replicas && (rollingBack ==> t !in w.preScale)
    requires RunSteps(w, t, steps, rollingBack, fates).1
    ensures
      var w' := RunSteps(w, t, steps, rollingBack, fates).0;
      && t in w'.replicas && w'.replicas[t] == Walk(w.replicas[t], steps)
      && (rollingBack ==> w'.preScale == w.preScale)
  {
    if steps != [] {
      StepsWalk(w, t, steps[..|steps| - 1], rollingBack, fates);
    }
  }

  /** When only one of run and rollback scales, nothing is put back: its own steps decide. */
  lemma OneWay(w: World, t: Target, p: Playbook, fates: nat -> StepFate, backFates: nat -> StepFate)
    requires t in w.replicas && Execute(w, t, p, fates).1
    requires Rollback(Execute(w, t, p, fates).0, t, p, backFates).1
    ensures
      var count, w2 := w.replicas[t], Rollback(Execute(w, t, p, fates).0, t, p, backFates).0;
      && t in w2.replicas
      && (HasScale(p.steps) && !HasScale(p.rollbackSteps) ==> w2.replicas[t] == Walk(count, p.steps))
      && (!HasScale(p.steps) && HasScale(p.rollbackSteps) ==> w2.replicas[t] == Walk(count, p.rollbackSteps))
  {
    ForwardRecords(Forget(w, t), t, p.steps, fates);
    StepsWalk(Forget(w, t), t, p.steps, false, fates);
    var w1 := Execute(w, t, p, fates).0;
    KeysStay(w1, t, p.rollbackSteps, true, backFates);
    if !HasScale(p.rollbackSteps) {
      NoScaleNoChange(w1, t, p.rollbackSteps, true, backFates);
    }
    if !HasScale(p.steps) {
      NoScaleNoChange(Forget(w, t), t, p.steps, false, fates);
      StepsWalk(w1, t, p.rollbackSteps, true, backFates);
    }
  }

  /** What a forward run and the rollback after it leave of the target's count. */
  lemma ThereAndBack(w: World, t: Target, p: Playbook, fates: nat -> StepFate, backFates: nat -> StepFate)
    requires t in w.replicas
    ensures
      var (w1, ok) := Execute(w, t, p, fates);
      var (w2, undone) := Rollback(w1, t, p, backFates);
      && t in w1.replicas && t in w2.replicas
      && (ok && HasScale(p.steps) ==> MIN_REPLICAS <= w1.replicas[t] <= MAX_REPLICAS)
      && (ok && undone && HasScale(p.steps) && HasScale(p.rollbackSteps) ==> w2.replicas[t] == OrOne(w.replicas[t]))
      && (ok && !HasScale(p.steps) && !HasScale(p.rollbackSteps) ==> w2.replicas[t] == w.replicas[t])
  {
    ForwardRecords(Forget(w, t), t, p.steps, fates);
    var w1 := Execute(w, t, p, fates).0;
    KeysStay(w1, t, p.rollbackSteps, true, backFates);
    if t in w1.preScale {
      RollbackRestores(w1, t, p.rollbackSteps, backFates);
    }
    if !HasScale(p.rollbackSteps) {
      NoScaleNoChange(w1, t, p.rollbackSteps, true, backFates);
    }
  }

  /**
   After any earlier remediations of any deployments, a run that ends ROLLED_BACK and scales both ways
   leaves exactly the count it found (an absent or zero count comes back as one), and a run that
   succeeds after scaling leaves a count in 1..10.
   */
  lemma RolledBackMeansRestored(w0: World, earlier: seq<Job>, j: Job)
    requires j.target in After(w0, earlier).replicas
    ensures
      var w := After(w0, earlier);
      var r := RemedyOf(w, j);
      && j.target in r.world.replicas
      && (r.outcome.result.RolledBack? && HasScale(j.playbook.steps) && HasScale(j.playbook.rollbackSteps) ==>
            && r.world.replicas[j.target] == OrOne(w.replicas[j.target])
            && (r.world.replicas[j.target] == w.replicas[j.target] <==> w.replicas[j.target] >= 1))
      && (r.outcome.result.RolledBack? && !HasScale(j.playbook.steps) && !HasScale(j.playbook.rollbackSteps) ==>
            r.world.replicas[j.target] == w.replicas[j.target])
      && (r.outcome.result.Success? && HasScale(j.playbook.steps) ==>
            MIN_REPLICAS <= r.world.replicas[j.target] <= MAX_REPLICAS)
  {
    var w := After(w0, earlier);
    ThereAndBack(w, j.target, j.playbook, j.fates, j.backFates);
    WorldByOutcome(w, j);
  }

  /**
   A run that ends ROLLED_BACK and scales one way only has restored the count exactly if its scalings happen to
   cancel out, for the count it leaves is the one they walk to. With steps that scale and a rollback that does
   not, they stay; with a rollback that scales after steps that do not, it scales what nobody had changed.
   */
  lemma OneWayRolledBack(w0: World, earlier: seq<Job>, j: Job)
    requires j.target in After(w0, earlier).replicas
    requires HasScale(j.playbook.steps) != HasScale(j.playbook.rollbackSteps)
    requires RemedyOf(After(w0, earlier), j).outcome.result.RolledBack?
    ensures
      var count, r := After(w0, earlier).replicas[j.target], RemedyOf(After(w0, earlier), j);
      var scaling := if HasScale(j.playbook.steps) then j.playbook.steps else j.playbook.rollbackSteps;
      && j.target in r.world.replicas
      && r.world.replicas[j.target] == Walk(count, scaling)
  {
    var w := After(w0, earlier);
    WorldByOutcome(w, j);
    OneWay(w, j.target, j.playbook, j.fates, j.backFates);
  }

  /** Such a run: one replica more, and a rollback that only waits. */
  lemma ScaledUpAndRolledBack(w: World, j: Job, count: nat)
    requires j.target in w.replicas && w.replicas[j.target] == count && MIN_REPLICAS <= count < MAX_REPLICAS
    requires j.playbook.steps == [Scale(Some(1))] && j.playbook.rollbackSteps == [Wait]
    requires RemedyOf(w, j).outcome.result.RolledBack?
    ensures j.target in RemedyOf(w, j).world.replicas && RemedyOf(w, j).world.replicas[j.target] == count + 1
  {
    assert j.playbook.steps[0].Scale?;
    assert j.playbook.steps[..0] == [];
    OneWayRolledBack(w, [], j);
  }

  /** Which world the outcome stands for. */
  lemma WorldByOutcome(w: World, j: Job)
    ensures
      var r := RemedyOf(w, j);
      var (w1, ok) := Execute(w, j.target, j.playbook, j.fates);
      var (w2, undone) := Rollback(w1, j.target, j.playbook, j.backFates);
      && (r.world == w || r.world == w1 || r.world == w2)
      && (r.outcome.result.Success? ==> r.world == w1 && ok)
      && (r.outcome.result.RolledBack? ==> r.world == w2 && ok && undone)
  {
    ClearedMeansNoStop(j.playbook, j.answers, j.skipApproval);
  }

  lemma {:induction false} KeysStay(w: World, t: Target, steps: seq<Step>, rollingBack: bool, fates: nat -> StepFate)
    ensures RunSteps(w, t, steps, rollingBack, fates).0.replicas.Keys == w.replicas.Keys
  {
    if steps != [] {
      KeysStay(w, t, steps[..|steps| - 1], rollingBack, fates);
    }
  }

  lemma {:induction false} NoScaleNoChange(w: World, t: Target, steps: seq<Step>, rollingBack: bool,
    fates: nat -> StepFate)
    requires !HasScale(steps)
    ensures RunSteps(w, t, steps, rollingBack, fates).0 == w
  {
    if steps != [] {
      HasScaleUpTo(steps);
      NoScaleNoChange(w, t, steps[..|steps| - 1], rollingBack, fates);
    }
  }
}
