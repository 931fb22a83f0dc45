/** The feedback loop: label each outcome, take automation back on a failure, hand it out on a clean record. */
module Feedback {
  import opened Prelude
  import opened Evidence

  datatype HitlMode = Auto | Hitl | Disabled

  datatype Outcome = Outcome(
    situationId: string, playbook: string, result: Result, healthAfter: string, hitlMode: HitlMode, mode: string)

  datatype Policy = Policy(minSuccesses: int, countSimulated: bool, canDemote: bool)

  datatype Stats = Stats(successes: nat, failures: nat, rollbacks: nat)

  /** A call of the graduator, and how many records the store held at that moment. */
  datatype Graduation = Graduation(playbook: string, storeSize: nat)

  datatype State = State(
    store: seq<Record>, graduated: set<string>, graduations: seq<Graduation>, demotions: seq<string>)

  // ---------------------------------------------------------------- labelling and counting

  function SignatureOf(situationId: string): string {
    if "sit-" <= situationId then situationId[4..] else situationId
  }

  function LabelOutcome(o: Outcome): Record {
    Record(SignatureOf(o.situationId), o.playbook, o.result, o.result == Success, Some(o.mode))
  }

  /**
   What one outcome adds to every track record: a real run on its own signature and playbook counts once,
   as worked only if it ended in success; a rehearsed or refused one counts for nothing.
   */
  lemma OneOutcomeOneRun(store: seq<Record>, o: Outcome, signature: string, playbook: Option<string>)
    ensures
      var mine := SignatureOf(o.situationId) == signature && (playbook.None? || playbook.value == o.playbook) &&
        o.mode != "dry_run" && o.mode != "none";
      && Total(store + [LabelOutcome(o)], signature, playbook) ==
        Total(store, signature, playbook) + (if mine then 1 else 0)
      && Worked(store + [LabelOutcome(o)], signature, playbook) ==
         Worked(store, signature, playbook) + (if mine && o.result == Success then 1 else 0)
  {
    CountsAppend(store, LabelOutcome(o), signature, playbook);
  }

  predicate CountedSuccess(r: Record, playbook: string, countSimulated: bool) {
    r.playbook == playbook && r.result.Success? && (countSimulated || r.mode != Some("dry_run"))
  }

  predicate Bad(r: Record, playbook: string) {
    r.playbook == playbook && (r.result.Failure? || r.result.RolledBack?)
  }

  function Successes(records: seq<Record>, playbook: string, countSimulated: bool): nat {
    if records == [] then 0
    else
      var last := |records| - 1;
      Successes(records[..last], playbook, countSimulated) +
      if CountedSuccess(records[last], playbook, countSimulated) then 1 else 0
  }

  function Ended(records: seq<Record>, playbook: string, result: Result): nat {
    if records == [] then 0
    else
      var last := records[|records| - 1];
      Ended(records[..|records| - 1], playbook, result) +
      if last.playbook == playbook && last.result == result then 1 else 0
  }

  method PlaybookStats(records: seq<Record>, playbook: string, countSimulated: bool) returns (stats: Stats)
    ensures stats == Stats(Successes(records, playbook, countSimulated),
      Ended(records, playbook, Failure), Ended(records, playbook, RolledBack))
  {
    var successes, failures, rollbacks := 0, 0, 0;
    for i := 0 to |records|
      invariant successes == Successes(records[..i], playbook, countSimulated)
      invariant failures == Ended(records[..i], playbook, Failure)
      invariant rollbacks == Ended(records[..i], playbook, RolledBack)
    {
      assert records[..i + 1][..i] == records[..i];
      var r := records[i];
      if r.playbook == playbook {
        if r.result.Success? {
          if countSimulated || r.mode != Some("dry_run") {
            successes := successes + 1;
          }
        } else if r.result.Failure? {
          failures := failures + 1;
        } else if r.result.RolledBack? {
          rollbacks := rollbacks + 1;
        }
      }
    }
    assert records[..|records|] == records;
    stats := Stats(successes, failures, rollbacks);
  }

  lemma {:induction false} NoneBad(records: seq<Record>, playbook: string)
    ensures Ended(records, playbook, Failure) == 0 && Ended(records, playbook, RolledBack) == 0 <==>
      forall r :: r in records ==> !Bad(r, playbook)
  {
    if records != [] {
      var last := |records| - 1;
      NoneBad(records[..last], playbook);
      assert records == records[..last] + [records[last]];
      if forall r :: r in records ==> !Bad(r, playbook) {
        assert records[last] in records && forall r :: r in records[..last] ==> r in records;
      }
    }
  }

  predicate ShouldGraduate(stats: Stats, minSuccesses: int) {
    stats.successes >= minSuccesses && stats.failures == 0 && stats.rollbacks == 0
  }

  /** The store holds a clean record for the playbook, long enough to graduate on. */
  predicate CleanRecord(records: seq<Record>, playbook: string, policy: Policy) {
    Successes(records, playbook, policy.countSimulated) >= policy.minSuccesses &&
    forall r :: r in records ==> !Bad(r, playbook)
  }

  // ---------------------------------------------------------------- one outcome

  predicate IsNoEvidence(o: Outcome) {
    o.result.Escalated? || "interrupted:" <= o.healthAfter
  }

  predicate TakesAutomationBack(o: Outcome, policy: Policy) {
    o.playbook != "" && policy.canDemote && o.hitlMode.Auto? && (o.result.Failure? || o.result.RolledBack?)
  }

  function Process(s: State, o: Outcome, policy: Policy): State {
    if IsNoEvidence(o) then s
    else
      var store := s.store + [LabelOutcome(o)];
      if TakesAutomationBack(o, policy) then
        s.(store := store, graduated := s.graduated - {o.playbook}, demotions := s.demotions + [o.playbook])
      else if o.playbook != "" && o.playbook !in s.graduated && CleanRecord(store, o.playbook, policy) then
        s.(store := store, graduated := s.graduated + {o.playbook},
           graduations := s.graduations + [Graduation(o.playbook, |store|)])
      else s.(store := store)
  }

  function ProcessAll(s: State, outcomes: seq<Outcome>, policy: Policy): State {
    if outcomes == [] then s
    else Process(ProcessAll(s, outcomes[..|outcomes| - 1], policy), outcomes[|outcomes| - 1], policy)
  }

  class FeedbackConsumer {
    const policy: Policy
    var store: seq<Record>
    var graduated: set<string>
    var graduations: seq<Graduation>
    var demotions: seq<string>

    function View(): State
      reads this
    {
      State(store, graduated, graduations, demotions)
    }

    constructor (policy: Policy, store: seq<Record>)
      ensures View() == State(store, {}, [], []) && this.policy == policy
    {
      this.policy := policy;
      this.store := store;
      graduated, graduations, demotions := {}, [], [];
    }

    method Handle(o: Outcome)
      modifies this
      ensures View() == Process(old(View()), o, policy)
    {
      if o.result.Escalated? {
        return;
      }
      if "interrupted:" <= o.healthAfter {
        return;
      }
      store := store + [LabelOutcome(o)];
      var playbook := o.playbook;
      if playbook != "" && policy.canDemote && o.hitlMode.Auto? && (o.result.Failure? || o.result.RolledBack?) {
        demotions := demotions + [playbook];
        graduated := graduated - {playbook};
        return;
      }
      if playbook != "" && playbook !in graduated {
        var stats := PlaybookStats(store, playbook, policy.countSimulated);
        NoneBad(store, playbook);
        if ShouldGraduate(stats, policy.minSuccesses) {
          graduations := graduations + [Graduation(playbook, |store|)];
          graduated := graduated + {playbook};
        }
      }
    }

    method Run(outcomes: seq<Outcome>)
      modifies this
      ensures View() == ProcessAll(old(View()), outcomes, policy)
    {
      for i := 0 to |outcomes|
        invariant View() == ProcessAll(old(View()), outcomes[..i], policy)
      {
        assert outcomes[..i + 1][..i] == outcomes[..i];
        Handle(outcomes[i]);
      }
      assert outcomes[..|outcomes|] == outcomes;
    }
  }

  // ---------------------------------------------------------------- over a whole run

  /** Every graduation was earned when it was made, no playbook graduates twice, and marks are explained. */
  ghost predicate Earned(s: State, policy: Policy) {
    && (forall g :: g in s.graduations ==>
      g.storeSize <= |s.store| && CleanRecord(s.store[..g.storeSize], g.playbook, policy))
    && (forall i, j :: 0 <= i < j < |s.graduations| ==> s.graduations[i].playbook != s.graduations[j].playbook)
    && (forall g :: g in s.graduations && g.playbook !in s.graduated ==> exists r :: r in s.store && Bad(r, g.playbook))
  }

  /** A longer store does not change what the store was when a graduation was made. */
  lemma LongerStore(s: State, r: Record, policy: Policy)
    requires Earned(s, policy)
    ensures Earned(s.(store := s.store + [r]), policy)
  {
    var longer := s.store + [r];
    assert forall n :: 0 <= n <= |s.store| ==> longer[..n] == s.store[..n];
    forall g | g in s.graduations && g.playbook !in s.graduated ensures exists q :: q in longer && Bad(q, g.playbook) {
      var q :| q in s.store && Bad(q, g.playbook);
      assert q in longer;
    }
  }

  lemma MarkTakenBack(s: State, playbook: string, policy: Policy)
    requires Earned(s, policy) && exists r :: r in s.store && Bad(r, playbook)
    ensures Earned(s.(graduated := s.graduated - {playbook}, demotions := s.demotions + [playbook]), policy)
  {
  }

  lemma GraduatedNow(s: State, playbook: string, policy: Policy)
    requires Earned(s, policy) && playbook !in s.graduated && CleanRecord(s.store, playbook, policy)
    ensures Earned(s.(graduated := s.graduated + {playbook},
      graduations := s.graduations + [Graduation(playbook, |s.store|)]), policy)
  {
    assert s.store[..|s.store|] == s.store;
    assert forall i :: 0 <= i < |s.graduations| ==> s.graduations[i] in s.graduations;
  }

  lemma StaysEarned(s: State, o: Outcome, policy: Policy)
    requires Earned(s, policy)
    ensures Earned(Process(s, o, policy), policy)
  {
    if !IsNoEvidence(o) {
      var longer := s.(store := s.store + [LabelOutcome(o)]);
      LongerStore(s, LabelOutcome(o), policy);
      assert LabelOutcome(o) in longer.store;
      if TakesAutomationBack(o, policy) {
        assert Bad(LabelOutcome(o), o.playbook);
        MarkTakenBack(longer, o.playbook, policy);
      } else if o.playbook !in s.graduated && CleanRecord(longer.store, o.playbook, policy) {
        GraduatedNow(longer, o.playbook, policy);
      }
    }
  }

  lemma {:induction false} RunsAreEarned(store: seq<Record>, outcomes: seq<Outcome>, policy: Policy)
    ensures Earned(ProcessAll(State(store, {}, [], []), outcomes, policy), policy)
  {
    if outcomes != [] {
      RunsAreEarned(store, outcomes[..|outcomes| - 1], policy);
      StaysEarned(ProcessAll(State(store, {}, [], []), outcomes[..|outcomes| - 1], policy), outcomes[|outcomes| - 1],
        policy);
    }
  }

  /**
   Over any run of outcomes on any store: each graduation found enough counted successes and no failure
   or rollback of the playbook in the store, and no playbook is graduated twice.
   */
  lemma GraduationIsEarnedOnce(store: seq<Record>, outcomes: seq<Outcome>, policy: Policy, i: nat, j: nat)
    requires i < |ProcessAll(State(store, {}, [], []), outcomes, policy).graduations|
    requires j < |ProcessAll(State(store, {}, [], []), outcomes, policy).graduations|
    ensures
      var s := ProcessAll(State(store, {}, [], []), outcomes, policy);
      var g := s.graduations[i];
      && g.storeSize <= |s.store|
      && CleanRecord(s.store[..g.storeSize], g.playbook, policy)
      && (g.playbook == s.graduations[j].playbook ==> i == j)
  {
    RunsAreEarned(store, outcomes, policy);
    var s := ProcessAll(State(store, {}, [], []), outcomes, policy);
    assert s.graduations[i] in s.graduations;
  }

  /** A failure or rollback on record bars its playbook for good, though the demoter clears the mark. */
  lemma FailureBarsForGood(store: seq<Record>, outcomes: seq<Outcome>, policy: Policy, i: nat, k: nat)
    requires i < |ProcessAll(State(store, {}, [], []), outcomes, policy).graduations|
    requires k < |ProcessAll(State(store, {}, [], []), outcomes, policy).store|
    ensures
      var s := ProcessAll(State(store, {}, [], []), outcomes, policy);
      Bad(s.store[k], s.graduations[i].playbook) ==> s.graduations[i].storeSize <= k
  {
    GraduationIsEarnedOnce(store, outcomes, policy, i, i);
    var s := ProcessAll(State(store, {}, [], []), outcomes, policy);
    if k < s.graduations[i].storeSize {
      assert s.store[..s.graduations[i].storeSize][k] == s.store[k];
    }
  }
}
