/** What the feedback consumer has recorded, demoted and graduated, told from the outcomes alone. */
module FeedbackHistory {
  import opened Prelude
  import opened Evidence
  import opened Feedback

  /** An automatic run of the playbook that is known to have failed or been rolled back. */
  predicate FailedUnattended(o: Outcome, playbook: string) {
    && o.playbook == playbook && playbook != "" && o.hitlMode.Auto? && (o.result.Failure? || o.result.RolledBack?)
    && !("interrupted:" <= o.healthAfter)
  }

  function Failures(outcomes: seq<Outcome>, playbook: string): nat {
    if outcomes == [] then 0
    else
      var last := |outcomes| - 1;
      Failures(outcomes[..last], playbook) + if FailedUnattended(outcomes[last], playbook) then 1 else 0
  }

  function Begin(store: seq<Record>): State {
    State(store, {}, [], [])
  }

  // ---------------------------------------------------------------- automation taken back

  /** One outcome takes automation back from its own playbook, or from none. */
  lemma OneDemotionPerFailure(s: State, o: Outcome, policy: Policy, playbook: string)
    ensures
      var demoted := policy.canDemote && FailedUnattended(o, playbook);
      && multiset(Process(s, o, policy).demotions)[playbook] ==
        multiset(s.demotions)[playbook] + (if demoted then 1 else 0)
      && (demoted ==> playbook !in Process(s, o, policy).graduated)
  {
  }

  /** The playbook failed once and has no mark. */
  ghost predicate Barred(s: State, playbook: string) {
    playbook !in s.graduated && exists r :: r in s.store && Bad(r, playbook)
  }

  lemma StaysBarred(s: State, o: Outcome, policy: Policy, playbook: string)
    requires Barred(s, playbook)
    ensures Barred(Process(s, o, policy), playbook)
  {
    var bad :| bad in s.store && Bad(bad, playbook);
    assert bad in Process(s, o, policy).store;
    assert bad in s.store + [LabelOutcome(o)];
  }

  lemma FailureBars(s: State, o: Outcome, policy: Policy, playbook: string)
    requires policy.canDemote && FailedUnattended(o, playbook)
    ensures Barred(Process(s, o, policy), playbook)
  {
    assert LabelOutcome(o) in Process(s, o, policy).store && Bad(LabelOutcome(o), playbook);
  }

  /**
   Over any outcomes on any store: with a demoter, automation is taken back from a playbook exactly as often as it
   failed unattended, without one never; and once it has failed so, this consumer holds no graduation of it again.
   */
  lemma {:induction false} AutomationIsTakenBack(store: seq<Record>, outcomes: seq<Outcome>, policy: Policy,
    playbook: string)
    ensures
      var s := ProcessAll(Begin(store), outcomes, policy);
      && multiset(s.demotions)[playbook] == (if policy.canDemote then Failures(outcomes, playbook) else 0)
      && (policy.canDemote && Failures(outcomes, playbook) > 0 ==> Barred(s, playbook))
  {
    if outcomes != [] {
      var front, o := outcomes[..|outcomes| - 1], outcomes[|outcomes| - 1];
      var before := ProcessAll(Begin(store), front, policy);
      AutomationIsTakenBack(store, front, policy, playbook);
      OneDemotionPerFailure(before, o, policy, playbook);
      if policy.canDemote && FailedUnattended(o, playbook) {
        FailureBars(before, o, policy, playbook);
      } else if policy.canDemote && Failures(front, playbook) > 0 {
        StaysBarred(before, o, policy, playbook);
      }
    }
  }

  // ---------------------------------------------------------------- what is recorded

  /** The outcomes that say something about a runbook: it was tried, and how that went is known. */
  function Telling(outcomes: seq<Outcome>): seq<Outcome> {
    if outcomes == [] then []
    else
      var front, o := outcomes[..|outcomes| - 1], outcomes[|outcomes| - 1];
      if o.result.Escalated? || "interrupted:" <= o.healthAfter then Telling(front) else Telling(front) + [o]
  }

  /** The record tells what the outcome told; the signature is the situation's id without its prefix. */
  predicate Labels(r: Record, o: Outcome) {
    && r.playbook == o.playbook && r.result == o.result && (r.worked <==> o.result.Success?) && r.mode == Some(o.mode)
    && if "sit-" <= o.situationId then "sit-" + r.signature == o.situationId else r.signature == o.situationId
  }

  ghost predicate Records(store: seq<Record>, before: seq<Record>, told: seq<Outcome>) {
    && |store| == |before| + |told| && before <= store
    && forall i :: 0 <= i < |told| ==> Labels(store[|before| + i], told[i])
  }

  lemma OneMoreRecord(store: seq<Record>, before: seq<Record>, told: seq<Outcome>, o: Outcome)
    requires Records(store, before, told)
    ensures Records(store + [LabelOutcome(o)], before, told + [o])
  {
    assert "sit-" <= o.situationId ==> "sit-" + o.situationId[4..] == o.situationId;
  }

  /** Every telling outcome is recorded once, in order, as what it was; nothing else is. */
  lemma {:induction false} StoreHoldsOutcomes(store: seq<Record>, outcomes: seq<Outcome>, policy: Policy)
    ensures Records(ProcessAll(Begin(store), outcomes, policy).store, store, Telling(outcomes))
  {
    if outcomes != [] {
      var front, o := outcomes[..|outcomes| - 1], outcomes[|outcomes| - 1];
      StoreHoldsOutcomes(store, front, policy);
      OneMoreRecord(ProcessAll(Begin(store), front, policy).store, store, Telling(front), o);
    }
  }

  // ---------------------------------------------------------------- what a graduation stands on

  /** A success of the playbook; a rehearsed one only where they count. */
  predicate Succeeded(r: Record, playbook: string, countSimulated: bool) {
    r.playbook == playbook && r.result.Success? && (countSimulated || r.mode != Some("dry_run"))
  }

  ghost function SuccessIndices(records: seq<Record>, playbook: string, countSimulated: bool): set<int> {
    set i | 0 <= i < |records| && Succeeded(records[i], playbook, countSimulated)
  }

  lemma IndicesAppend(records: seq<Record>, r: Record, playbook: string, countSimulated: bool)
    ensures |SuccessIndices(records + [r], playbook, countSimulated)| ==
      |SuccessIndices(records, playbook, countSimulated)| + if Succeeded(r, playbook, countSimulated) then 1 else 0
  {
    var before, longer := SuccessIndices(records, playbook, countSimulated), records + [r];
    forall i | 0 <= i < |records| ensures longer[i] == records[i] {
    }
    assert SuccessIndices(longer, playbook, countSimulated) ==
      if Succeeded(r, playbook, countSimulated) then before + {|records|} else before;
  }

  lemma {:induction false} SuccessesAreIndices(records: seq<Record>, playbook: string, countSimulated: bool)
    ensures Successes(records, playbook, countSimulated) == |SuccessIndices(records, playbook, countSimulated)|
  {
    if records != [] {
      var last := |records| - 1;
      SuccessesAreIndices(records[..last], playbook, countSimulated);
      IndicesAppend(records[..last], records[last], playbook, countSimulated);
      assert records == records[..last] + [records[last]];
    }
  }

  /**
   Whenever a playbook was graduated, the store then held at least `minSuccesses` successes of it, rehearsed ones
   only where they count, and no failure and no rollback.
   */
  lemma GraduationStandsOnSuccesses(store: seq<Record>, outcomes: seq<Outcome>, policy: Policy, i: nat)
    requires i < |ProcessAll(Begin(store), outcomes, policy).graduations|
    ensures
      var s := ProcessAll(Begin(store), outcomes, policy);
      var g := s.graduations[i];
      && g.storeSize <= |s.store|
      && |SuccessIndices(s.store[..g.storeSize], g.playbook, policy.countSimulated)| >= policy.minSuccesses
      && forall k :: 0 <= k < g.storeSize && s.store[k].playbook == g.playbook ==>
           !s.store[k].result.Failure? && !s.store[k].result.RolledBack?
  {
    GraduationIsEarnedOnce(store, outcomes, policy, i, i);
    var s := ProcessAll(Begin(store), outcomes, policy);
    var g := s.graduations[i];
    SuccessesAreIndices(s.store[..g.storeSize], g.playbook, policy.countSimulated);
    forall k | 0 <= k < g.storeSize && s.store[k].playbook == g.playbook
      ensures !s.store[k].result.Failure? && !s.store[k].result.RolledBack?
    {
      assert s.store[k] in s.store[..g.storeSize];
      assert !Bad(s.store[k], g.playbook);
    }
  }
}
