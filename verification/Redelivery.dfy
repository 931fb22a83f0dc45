/**
 Feedback under redelivery. A handler that dies between recording an outcome and marking its message done is
 given the same message again, by a process that has forgotten whom it graduated, and records it again: how
 far can one outcome count towards a graduation?
*/
module Redelivery {
  import opened Evidence
  import opened Feedback
  import opened FeedbackHistory
  import Delivery
  import DeliveryOrder
  import DeliveryTheorems

  /** A stream entry is handled, or the process is started anew. */
  datatype Event = Handled(entry: nat) | Restarted

  function Next(s: State, event: Event, carried: nat -> Outcome, policy: Policy): State {
    match event
    case Handled(e) => Process(s, carried(e), policy)
    case Restarted => s.(graduated := {})
  }

  /** After these events, starting on a store, given what each entry carries. */
  function StateAfter(store: seq<Record>, events: seq<Event>, carried: nat -> Outcome, policy: Policy): State {
    if events == [] then State(store, {}, [], [])
    else Next(StateAfter(store, events[..|events| - 1], carried, policy), events[|events| - 1], carried, policy)
  }

  /** How often entry `e` was handled. */
  function Times(events: seq<Event>, e: nat): nat {
    if events == [] then 0
    else Times(events[..|events| - 1], e) + if events[|events| - 1] == Handled(e) then 1 else 0
  }

  /** Recording this outcome adds a success that counts for the playbook. */
  predicate CountsFor(o: Outcome, playbook: string, policy: Policy) {
    !IsNoEvidence(o) && CountedSuccess(LabelOutcome(o), playbook, policy.countSimulated)
  }

  /** The different entries that were handled and carry such an outcome. */
  ghost function Counting(events: seq<Event>, carried: nat -> Outcome, playbook: string, policy: Policy): set<nat> {
    set event | event in events && event.Handled? && CountsFor(carried(event.entry), playbook, policy) :: event.entry
  }

  function Hits(events: seq<Event>, entries: set<nat>): nat {
    if events == [] then 0
    else
      var last := events[|events| - 1];
      Hits(events[..|events| - 1], entries) + if last.Handled? && last.entry in entries then 1 else 0
  }

  lemma {:induction false} HitsSplit(events: seq<Event>, entries: set<nat>, e: nat)
    requires e in entries
    ensures Hits(events, entries) == Hits(events, entries - {e}) + Times(events, e)
  {
    if events != [] {
      HitsSplit(events[..|events| - 1], entries, e);
    }
  }

  lemma {:induction false} NoHits(events: seq<Event>)
    ensures Hits(events, {}) == 0
  {
    if events != [] {
      NoHits(events[..|events| - 1]);
    }
  }

  lemma {:induction false} HitsBounded(events: seq<Event>, entries: set<nat>, d: nat)
    requires forall e: nat :: Times(events, e) <= d
    ensures Hits(events, entries) <= d * |entries|
    decreases |entries|
  {
    if entries == {} {
      NoHits(events);
    } else {
      var e :| e in entries;
      HitsSplit(events, entries, e);
      HitsBounded(events, entries - {e}, d);
      assert d * |entries| == d * |entries - {e}| + d;
    }
  }

  lemma SuccessesAppend(records: seq<Record>, r: Record, playbook: string, countSimulated: bool)
    ensures Successes(records + [r], playbook, countSimulated) ==
      Successes(records, playbook, countSimulated) + if CountedSuccess(r, playbook, countSimulated) then 1 else 0
  {
    assert (records + [r])[..|records|] == records;
  }

  lemma ProcessCounts(s: State, o: Outcome, playbook: string, policy: Policy)
    ensures Successes(Process(s, o, policy).store, playbook, policy.countSimulated) ==
      Successes(s.store, playbook, policy.countSimulated) + if CountsFor(o, playbook, policy) then 1 else 0
  {
    SuccessesAppend(s.store, LabelOutcome(o), playbook, policy.countSimulated);
  }

  /** Exactly what a run adds to the count: one for every time a counting outcome was handled. */
  lemma {:induction false} SuccessesAreHits(store: seq<Record>, events: seq<Event>, carried: nat -> Outcome,
    playbook: string, policy: Policy, entries: set<nat>)
    requires forall event :: event in events && event.Handled? ==>
      (event.entry in entries <==> CountsFor(carried(event.entry), playbook, policy))
    ensures Successes(StateAfter(store, events, carried, policy).store, playbook, policy.countSimulated) ==
      Successes(store, playbook, policy.countSimulated) + Hits(events, entries)
  {
    if events != [] {
      var front, last := events[..|events| - 1], events[|events| - 1];
      SuccessesAreHits(store, front, carried, playbook, policy, entries);
      assert last in events;
      if last.Handled? {
        ProcessCounts(StateAfter(store, front, carried, policy), carried(last.entry), playbook, policy);
      }
    }
  }

  lemma {:induction false} SuccessesGrow(records: seq<Record>, n: nat, playbook: string, countSimulated: bool)
    requires n <= |records|
    ensures Successes(records[..n], playbook, countSimulated) <= Successes(records, playbook, countSimulated)
  {
    if n < |records| {
      SuccessesGrow(records[..|records| - 1], n, playbook, countSimulated);
      assert records[..|records| - 1][..n] == records[..n];
    } else {
      assert records[..n] == records;
    }
  }

  // ---------------------------------------------------------------- automation taken back

  /** How often an outcome was handled that tells of an unattended failure of the playbook. */
  function FailuresHandled(events: seq<Event>, carried: nat -> Outcome, playbook: string): nat {
    if events == [] then 0
    else
      var last := events[|events| - 1];
      FailuresHandled(events[..|events| - 1], carried, playbook) +
      if last.Handled? && FailedUnattended(carried(last.entry), playbook) then 1 else 0
  }

  /**
   Under redelivery and restarts automation is taken back once for every time such an outcome is handled, and from
   the first time on no process holds a graduation of the playbook.
   */
  lemma {:induction false} AutomationIsTakenBackAgain(store: seq<Record>, events: seq<Event>, carried: nat -> Outcome,
    playbook: string, policy: Policy)
    requires policy.canDemote
    ensures
      var s := StateAfter(store, events, carried, policy);
      && multiset(s.demotions)[playbook] == FailuresHandled(events, carried, playbook)
      && (FailuresHandled(events, carried, playbook) > 0 ==> Barred(s, playbook))
  {
    if events != [] {
      var front, last := events[..|events| - 1], events[|events| - 1];
      var before := StateAfter(store, front, carried, policy);
      AutomationIsTakenBackAgain(store, front, carried, playbook, policy);
      if last.Handled? {
        OneDemotionPerFailure(before, carried(last.entry), policy, playbook);
        if FailedUnattended(carried(last.entry), playbook) {
          FailureBars(before, carried(last.entry), policy, playbook);
        } else if FailuresHandled(front, carried, playbook) > 0 {
          StaysBarred(before, carried(last.entry), policy, playbook);
        }
      }
    }
  }

  /** A process started anew proposes a playbook that already graduated once more, with its next success. */
  lemma GraduatedAgainAfterRestart(s: State, e: nat, carried: nat -> Outcome, policy: Policy)
    requires carried(e).result.Success? && !("interrupted:" <= carried(e).healthAfter) && carried(e).playbook != ""
    requires forall r :: r in s.store && r.playbook == carried(e).playbook ==> r.result.Success?
    requires |SuccessIndices(s.store, carried(e).playbook, policy.countSimulated)| >= policy.minSuccesses
    ensures
      var again := Next(Next(s, Restarted, carried, policy), Handled(e), carried, policy);
      && again.graduations == s.graduations + [Graduation(carried(e).playbook, |s.store| + 1)]
      && again.graduated == {carried(e).playbook}
  {
    var o := carried(e);
    SuccessesAreIndices(s.store, o.playbook, policy.countSimulated);
    SuccessesAppend(s.store, LabelOutcome(o), o.playbook, policy.countSimulated);
    assert CleanRecord(s.store + [LabelOutcome(o)], o.playbook, policy);
  }

  // ---------------------------------------------------------------- how far one outcome counts

  /** Each graduation found a clean and sufficient record when it was made. */
  ghost predicate AllClean(s: State, policy: Policy) {
    forall g :: g in s.graduations ==>
      g.storeSize <= |s.store| && CleanRecord(s.store[..g.storeSize], g.playbook, policy)
  }

  lemma StaysClean(s: State, o: Outcome, policy: Policy)
    requires AllClean(s, policy)
    ensures AllClean(Process(s, o, policy), policy)
  {
    var longer := s.store + [LabelOutcome(o)];
    assert longer[..|longer|] == longer;
    forall g | g in s.graduations ensures longer[..g.storeSize] == s.store[..g.storeSize] {
    }
  }

  lemma {:induction false} GraduationsAreClean(store: seq<Record>, events: seq<Event>, carried: nat -> Outcome,
    policy: Policy)
    ensures AllClean(StateAfter(store, events, carried, policy), policy)
  {
    if events != [] {
      var front, last := events[..|events| - 1], events[|events| - 1];
      GraduationsAreClean(store, front, carried, policy);
      if last.Handled? {
        StaysClean(StateAfter(store, front, carried, policy), carried(last.entry), policy);
      }
    }
  }

  /**
   When no entry is handled more than `d` times, a graduation had at least `minSuccesses / d` different
   successful outcomes behind it, those in the store to begin with counted in.
   */
  lemma GraduationNeedsOutcomes(store: seq<Record>, events: seq<Event>, carried: nat -> Outcome, policy: Policy,
    d: nat, i: nat)
    requires forall e: nat :: Times(events, e) <= d
    requires i < |StateAfter(store, events, carried, policy).graduations|
    ensures
      var playbook := StateAfter(store, events, carried, policy).graduations[i].playbook;
      policy.minSuccesses <=
        Successes(store, playbook, policy.countSimulated) + d * |Counting(events, carried, playbook, policy)|
  {
    var s := StateAfter(store, events, carried, policy);
    var g := s.graduations[i];
    var entries := Counting(events, carried, g.playbook, policy);
    GraduationsAreClean(store, events, carried, policy);
    assert g in s.graduations;
    SuccessesGrow(s.store, g.storeSize, g.playbook, policy.countSimulated);
    SuccessesAreHits(store, events, carried, g.playbook, policy, entries);
    HitsBounded(events, entries, d);
  }

  /** No entry is handled more often than the bus hands it out. */
  ghost predicate HandledAsYielded(events: seq<Event>, yielded: seq<(nat, nat)>) {
    forall e: nat :: Times(events, e) <= DeliveryOrder.Yields(yielded, e)
  }

  /**
   On the delivery machine: with the DLQ on one outcome counts at most max_delivery_attempts times, and in
   the default mode at most once, over any number of crashes, redeliveries and reconnects.
   */
  lemma GraduationOnTheBus(cfg: Delivery.Config, steps: seq<Delivery.Step>, store: seq<Record>, events: seq<Event>,
    carried: nat -> Outcome, policy: Policy, i: nat)
    requires cfg.atLeastOnce ==> cfg.dlqOn
    requires HandledAsYielded(events, Delivery.Run(cfg, steps).history.yielded)
    requires i < |StateAfter(store, events, carried, policy).graduations|
    ensures
      var playbook := StateAfter(store, events, carried, policy).graduations[i].playbook;
      var times := if cfg.atLeastOnce then cfg.maxAttempts else 1;
      policy.minSuccesses <=
        Successes(store, playbook, policy.countSimulated) + times * |Counting(events, carried, playbook, policy)|
  {
    var times := if cfg.atLeastOnce then cfg.maxAttempts else 1;
    forall e: nat ensures Times(events, e) <= times {
      if cfg.atLeastOnce {
        DeliveryTheorems.RedeliveryIsBounded(cfg, steps, e);
      } else {
        DeliveryTheorems.DeliveredAtMostOnce(cfg, steps, e);
      }
    }
    GraduationNeedsOutcomes(store, events, carried, policy, times, i);
  }

  // ---------------------------------------------------------------- the bound is reached

  /** The same entry, handled `n` times, each time by a new process. */
  function Again(n: nat): seq<Event> {
    if n == 0 then [] else Again(n - 1) + [Restarted] + [Handled(0)]
  }

  /** `n` counting successes of this playbook are on record, nothing else, and it has not graduated yet. */
  ghost predicate OnRecord(s: State, playbook: string, policy: Policy, n: nat) {
    && s.graduated == {} && s.graduations == [] && |s.store| == n
    && Successes(s.store, playbook, policy.countSimulated) == n
    && forall r :: r in s.store ==> !Bad(r, playbook)
  }

  lemma OneMoreOnRecord(s: State, o: Outcome, policy: Policy, n: nat)
    requires CountsFor(o, o.playbook, policy) && o.playbook != "" && OnRecord(s, o.playbook, policy, n)
    ensures n + 1 < policy.minSuccesses ==> OnRecord(Process(s, o, policy), o.playbook, policy, n + 1)
    ensures n + 1 == policy.minSuccesses ==>
      Process(s, o, policy).graduations == [Graduation(o.playbook, policy.minSuccesses)]
  {
    SuccessesAppend(s.store, LabelOutcome(o), o.playbook, policy.countSimulated);
  }

  lemma OnceMore(o: Outcome, policy: Policy, n: nat)
    requires StateAfter([], Again(n), _ => o, policy).graduated == {}
    ensures StateAfter([], Again(n + 1), _ => o, policy) == Process(StateAfter([], Again(n), _ => o, policy), o, policy)
  {
    var restarted := Again(n) + [Restarted];
    assert restarted[..|Again(n)|] == Again(n);
    assert Again(n + 1)[..|restarted|] == restarted;
  }

  lemma {:induction false} AgainOnRecord(o: Outcome, policy: Policy, n: nat)
    requires CountsFor(o, o.playbook, policy) && o.playbook != "" && n < policy.minSuccesses
    ensures OnRecord(StateAfter([], Again(n), _ => o, policy), o.playbook, policy, n)
  {
    if n > 0 {
      AgainOnRecord(o, policy, n - 1);
      OnceMore(o, policy, n - 1);
      OneMoreOnRecord(StateAfter([], Again(n - 1), _ => o, policy), o, policy, n - 1);
    }
  }

  /** One successful run is enough to graduate a playbook if its outcome is handled often enough. */
  lemma OneOutcomeCanGraduate(o: Outcome, policy: Policy)
    requires CountsFor(o, o.playbook, policy) && o.playbook != "" && policy.minSuccesses >= 1
    ensures StateAfter([], Again(policy.minSuccesses), _ => o, policy).graduations ==
      [Graduation(o.playbook, policy.minSuccesses)]
  {
    var n := policy.minSuccesses - 1;
    AgainOnRecord(o, policy, n);
    OnceMore(o, policy, n);
    OneMoreOnRecord(StateAfter([], Again(n), _ => o, policy), o, policy, n);
  }
}
