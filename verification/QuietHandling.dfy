/**
 Quiet handling: correlation asks for it by signature, the action service decides by playbook, and the
 remediation then runs without asking anyone.
*/
module QuietHandling {
  import opened Prelude
  import Evidence
  import R = Remediation

  /** What the decision looks at; `log` is absent when there is no training store or it cannot be read. */
  datatype Request = Request(
    quiet: bool, signature: string, allowed: bool, log: Option<seq<Evidence.Record>>, threshold: real, minSamples: int)

  predicate Earned(q: Request, p: R.Playbook) {
    q.allowed && q.log.Some? && Evidence.QuietEligible(q.log.value, q.signature, p.id, q.threshold, q.minSamples)
  }

  /** An auto playbook asks nobody anyway, so there is nothing to waive. */
  predicate SkipApproval(q: Request, p: R.Playbook) {
    q.quiet && p.hitlMode.Hitl? && Earned(q, p)
  }

  /** The outcome is published as handled quietly. */
  predicate ReportedQuiet(q: Request, p: R.Playbook) {
    q.quiet && (SkipApproval(q, p) || p.hitlMode.Auto?)
  }

  function Handle(w: R.World, q: Request, p: R.Playbook, t: R.Target, a: R.Answers,
    fates: nat -> R.StepFate, backFates: nat -> R.StepFate): R.Remedy
  {
    R.Remediate(w, p, t, a, SkipApproval(q, p), fates, backFates)
  }

  /** Whether a human is asked depends on the gates alone. */
  lemma AskedByGates(w: R.World, p: R.Playbook, t: R.Target, a: R.Answers, skip: bool,
    fates: nat -> R.StepFate, backFates: nat -> R.StepFate)
    ensures R.AskedApproval in R.Remediate(w, p, t, a, skip, fates, backFates).effects <==>
      R.AskedApproval in R.Gated(p, a, skip).1
  {
    var (stop, asked) := R.Gated(p, a, skip);
    var effects := R.Remediate(w, p, t, a, skip, fates, backFates).effects;
    assert asked <= effects;
    forall i | |asked| <= i < |effects| ensures effects[i] != R.AskedApproval {
    }
    if R.AskedApproval in asked {
      var i :| 0 <= i < |asked| && asked[i] == R.AskedApproval;
      assert effects[i] == R.AskedApproval;
    }
  }

  lemma GatesAsk(p: R.Playbook, a: R.Answers, skip: bool)
    requires R.Cleared(p, a, skip)
    ensures R.AskedApproval in R.Gated(p, a, skip).1 <==> p.hitlMode.Hitl? && !skip
  {
    R.ClearedMeansNoStop(p, a, skip);
    var asked := R.Gated(p, a, skip).1;
    assert asked == [R.Rehearsed] + R.Consent(p, a, skip).0;
    if p.hitlMode.Hitl? && !skip {
      assert asked[1] == R.AskedApproval;
    }
  }

  lemma GatesAskNobodyToSkip(p: R.Playbook, a: R.Answers, skip: bool)
    requires !p.hitlMode.Hitl? || skip
    ensures R.AskedApproval !in R.Gated(p, a, skip).1
  {
  }

  /** Waivers are allowed, and this playbook's own runs on this signature have earned one. */
  ghost predicate Waivable(q: Request, p: R.Playbook) {
    q.allowed && q.log.Some? && Evidence.Proven(q.log.value, q.signature, p.id, q.threshold, q.minSamples)
  }

  /**
   Reported as handled quietly, nobody was asked; a run that reached the cluster is reported so exactly if it was
   requested and nobody was. And a run that reached the cluster without a human being
   asked was an auto playbook's, or had this playbook's own proven record on this signature behind it.
   */
  lemma NobodyAskedOnlyOnRecord(w: R.World, q: Request, p: R.Playbook, t: R.Target, a: R.Answers,
    fates: nat -> R.StepFate, backFates: nat -> R.StepFate)
    ensures
      var effects := Handle(w, q, p, t, a, fates, backFates).effects;
      && (ReportedQuiet(q, p) ==> R.AskedApproval !in effects)
      && (R.Executed in effects ==>
            && (R.AskedApproval !in effects <==> p.hitlMode.Auto? || (q.quiet && Waivable(q, p)))
            && (ReportedQuiet(q, p) <==> q.quiet && R.AskedApproval !in effects))
  {
    if q.log.Some? {
      Evidence.QuietEligibleIffProven(q.log.value, q.signature, p.id, q.threshold, q.minSamples);
    }
    var skip := SkipApproval(q, p);
    AskedByGates(w, p, t, a, skip, fates, backFates);
    R.RunsOnlyWhenCleared(w, p, t, a, skip, fates, backFates);
    if ReportedQuiet(q, p) {
      GatesAskNobodyToSkip(p, a, skip);
    }
    if R.Cleared(p, a, skip) {
      GatesAsk(p, a, skip);
    }
  }

  /**
   On a signature only this playbook ever ran on, correlation's request - the retrained reliability map's
   verdict with at least one sample asked for - is honoured exactly if waivers are allowed.
   */
  lemma RequestHonouredForSolePlaybook(q: Request, p: R.Playbook)
    requires q.quiet && q.log.Some? && p.hitlMode.Hitl?
    requires forall r :: r in q.log.value && Evidence.IsReal(r) && r.signature == q.signature ==> r.playbook == p.id
    requires Evidence.SuppressVerdict(Evidence.RealRecords(q.log.value), q.signature, q.threshold, Max(1, q.minSamples))
    ensures SkipApproval(q, p) <==> q.allowed
  {
    Evidence.OnePlaybookIsJudgedAlike(q.log.value, q.signature, p.id, q.threshold, q.minSamples);
  }
}
