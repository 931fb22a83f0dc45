/** The promises of the delivery pipeline, for every schedule of steps. */
module DeliveryTheorems {
  import opened Delivery
  import opened DeliverySafety
  import opened DeliveryOrder

  ghost predicate Sound(cfg: Config, s: State) {
    && Shaped(cfg, s)
    && ClaimsKept(cfg, s)
    && PendingKept(cfg, s)
    && OutcomesKept(cfg, s)
    && (cfg.atLeastOnce ==> InOrder(s.server, s.history) && YieldsAccounted(s.server, s.history))
    && (cfg.atLeastOnce && cfg.dlqOn ==> Bounded(cfg, s))
    && (!cfg.atLeastOnce ==> OnceOnly(cfg, s))
    && (!cfg.dlqOn ==> NothingParked(cfg, s))
  }

  /** With the DLQ off no thread ever stands at a parking call. */
  ghost predicate NothingParked(cfg: Config, s: State) {
    && s.history.parked == {}
    && (forall c: nat :: AvoidsDlq(ClientOf(cfg, s, c).at))
  }

  predicate AvoidsDlq(at: At) {
    !at.CountAttempt? && !at.ExpireCount? && !at.Park? && !at.ParkAck? && !at.ParkForget? && !at.ParkUndecodable?
  }

  lemma NothingParkedByStep(cfg: Config, s: State, step: Step)
    requires Shaped(cfg, s) && NothingParked(cfg, s) && !cfg.dlqOn
    ensures NothingParked(cfg, Next(cfg, s, step))
  {
    var s' := Next(cfg, s, step);
    if step.Act? {
      var cl := ClientOf(cfg, s, step.consumer);
      assert InHand(s.server, cl) && AvoidsDlq(cl.at);
      AvoidsDlqByCall(cfg, s.server, s.history, step.consumer, cl, step.playbookFound);
      forall d: nat ensures AvoidsDlq(ClientOf(cfg, s', d).at) {
        assert AvoidsDlq(ClientOf(cfg, s, d).at);
      }
    } else {
      forall d: nat ensures AvoidsDlq(ClientOf(cfg, s', d).at) {
        assert AvoidsDlq(ClientOf(cfg, s, d).at);
      }
    }
  }

  lemma MoveAvoidsDlq(cfg: Config, server: Server, cl: Client, playbookFound: bool)
    requires InHand(server, cl) && !cl.at.Top? && AvoidsDlq(cl.at) && !cfg.dlqOn
    ensures MoveOf(cfg, server, cl, playbookFound).Goto? ==> AvoidsDlq(MoveOf(cfg, server, cl, playbookFound).at)
  {
  }

  lemma AvoidsDlqByCall(cfg: Config, server: Server, h: History, c: nat, cl: Client, playbookFound: bool)
    requires InHand(server, cl) && AvoidsDlq(cl.at) && !cfg.dlqOn
    ensures Effect(server, h, c, cl, playbookFound).1.parked == h.parked
    ensures AvoidsDlq(Advance(cfg, server, c, cl, playbookFound).at)
  {
    if !cl.at.Top? {
      MoveAvoidsDlq(cfg, server, cl, playbookFound);
    }
  }

  lemma SoundByStep(cfg: Config, s: State, step: Step)
    requires Sound(cfg, s)
    ensures Sound(cfg, Next(cfg, s, step))
  {
    ShapeKept(cfg, s, step);
    ClaimsKeptByStep(cfg, s, step);
    PendingKeptByStep(cfg, s, step);
    if step.Act? {
      OutcomesKeptByCall(cfg, s, step);
    } else if MayProduce(s.server.stream, step.entry) {
      OutcomesKeptByProduce(cfg, s, step.entry);
    }
    if cfg.atLeastOnce {
      InOrderByStep(cfg, s, step);
      YieldsAccountedByStep(cfg, s, step);
      if cfg.dlqOn {
        if step.Act? {
          BoundedByCall(cfg, s, step);
        } else {
          BoundedByProduce(cfg, s, step);
        }
      }
    }
    if !cfg.atLeastOnce {
      if step.Act? {
        OnceOnlyByCall(cfg, s, step);
      } else {
        OnceOnlyByProduce(cfg, s, step);
      }
    }
    if !cfg.dlqOn {
      NothingParkedByStep(cfg, s, step);
    }
  }

  lemma BoundedByProduce(cfg: Config, s: State, step: Step)
    requires Shaped(cfg, s) && Bounded(cfg, s) && step.Produce?
    ensures Bounded(cfg, Next(cfg, s, step))
  {
    var s' := Next(cfg, s, step);
    forall d: nat ensures CountedAhead(cfg, s'.server, s'.history, ClientOf(cfg, s', d)) {
      assert CountedAhead(cfg, s.server, s.history, ClientOf(cfg, s, d));
    }
  }

  /** Every reachable state is sound. */
  lemma {:induction false} RunIsSound(cfg: Config, steps: seq<Step>)
    ensures Sound(cfg, Run(cfg, steps))
  {
    if steps != [] {
      var last := |steps| - 1;
      RunIsSound(cfg, steps[..last]);
      SoundByStep(cfg, Run(cfg, steps[..last]), steps[last]);
    }
  }

  // ---------------------------------------------------------------- the theorems

  /** However runs crash, race and are redelivered, a remediation starts at most once per occurrence. */
  lemma AtMostOneRemediation(cfg: Config, steps: seq<Step>, o: Occurrence)
    ensures multiset(Run(cfg, steps).history.started)[o] <= 1
  {
    RunIsSound(cfg, steps);
    NoDuplicatesCount(Run(cfg, steps).history.started, o);
  }

  /**
   A run reports on an occurrence conclusively at most once, and the report is true: "ran" exactly when
   a remediation was started, "escalated" only when none ever was.
   */
  lemma ConclusiveReportsAreUniqueAndTrue(cfg: Config, steps: seq<Step>, i: nat, j: nat)
    requires i < |Run(cfg, steps).history.outcomes| && j < |Run(cfg, steps).history.outcomes|
    requires Conclusive(Run(cfg, steps).history.outcomes[i]) && Conclusive(Run(cfg, steps).history.outcomes[j])
    ensures
      var h := Run(cfg, steps).history;
      && (h.outcomes[i].occurrence == h.outcomes[j].occurrence ==> i == j)
      && (h.outcomes[i].kind == Ran <==> h.outcomes[i].occurrence in h.started)
  {
    RunIsSound(cfg, steps);
    assert Run(cfg, steps).history.outcomes[i] in Run(cfg, steps).history.outcomes;
  }

  lemma {:induction false} NoDuplicatesCount<T>(xs: seq<T>, x: T)
    requires forall i, j :: 0 <= i < j < |xs| ==> xs[i] != xs[j]
    ensures multiset(xs)[x] <= 1
  {
    if xs != [] {
      var last := |xs| - 1;
      NoDuplicatesCount(xs[..last], x);
      assert xs == xs[..last] + [xs[last]];
      assert xs[last] !in xs[..last];
    }
  }

  /** Under at_least_once an acked diagnosis was parked, or its handler finished and its outcome is out. */
  lemma NoAckBeforeOutcome(cfg: Config, steps: seq<Step>, e: nat)
    requires cfg.atLeastOnce && e in Run(cfg, steps).history.acked
    ensures
      var s := Run(cfg, steps);
      || e in s.history.parked
      || (Completed(s.server.stream, s.history, e) &&
          e < |s.server.stream| && s.server.stream[e].body.Some? &&
          Announced(s.history, s.server.stream[e].body.value))
  {
    RunIsSound(cfg, steps);
    var s := Run(cfg, steps);
    if e !in s.history.parked {
      assert Settled(s.server.stream, s.history, e);
      var f :| f in s.history.finished && Copies(s.server.stream, f, e);
      assert s.server.stream[f].body == s.server.stream[e].body;
    }
  }

  /** Every delivered entry is pending or acked but not both, and no consumer has two entries pending. */
  lemma NothingLost(cfg: Config, steps: seq<Step>, e: nat, c: nat)
    ensures
      var s := Run(cfg, steps);
      && (e < s.server.delivered <==> (e in s.server.pending || e in s.history.acked))
      && !(e in s.server.pending && e in s.history.acked)
      && (cfg.atLeastOnce ==> |OwnedBy(s.server.pending, c)| <= 1)
  {
    RunIsSound(cfg, steps);
    var s := Run(cfg, steps);
    if cfg.atLeastOnce {
      var owned := OwnedBy(s.server.pending, c);
      assert HoldsOne(owned, ClientOf(cfg, s, c));
      if owned != {} {
        var f :| f in owned;
        assert owned == {f};
      }
    }
  }

  /** Under at_least_once a consumer is handed entries in stream order, across restarts and reconnects. */
  lemma YieldsInStreamOrder(cfg: Config, steps: seq<Step>, i: nat, j: nat)
    requires cfg.atLeastOnce
    requires i < j < |Run(cfg, steps).history.yielded|
    requires Run(cfg, steps).history.yielded[i].0 == Run(cfg, steps).history.yielded[j].0
    ensures Run(cfg, steps).history.yielded[i].1 <= Run(cfg, steps).history.yielded[j].1
  {
    RunIsSound(cfg, steps);
  }

  /**
   So first completions happen in stream order: when the handler of a consumer comes to its end with an
   entry in hand, everything else that consumer was ever handed lies before it and has been settled.
   */
  lemma CompletionsInStreamOrder(cfg: Config, steps: seq<Step>, c: nat, y: (nat, nat))
    requires cfg.atLeastOnce && ClientOf(cfg, Run(cfg, steps), c).at.Resume?
    requires y in Run(cfg, steps).history.yielded && y.0 == c
    ensures
      var s := Run(cfg, steps);
      var batch := ClientOf(cfg, s, c).batch;
      && |batch| == 1 && y.1 <= batch[0]
      && (y.1 != batch[0] ==> Settled(s.server.stream, s.history, y.1))
  {
    RunIsSound(cfg, steps);
    var s := Run(cfg, steps);
    var cl := ClientOf(cfg, s, c);
    assert HoldsOne(OwnedBy(s.server.pending, c), cl);
    assert cl.batch[0] in OwnedBy(s.server.pending, c);
    assert y.1 in s.history.acked || y.1 in OwnedBy(s.server.pending, c);
  }

  /** With the DLQ on, no entry is handed out more than `maxAttempts` times in all. */
  lemma RedeliveryIsBounded(cfg: Config, steps: seq<Step>, e: nat)
    requires cfg.atLeastOnce && cfg.dlqOn
    ensures Yields(Run(cfg, steps).history.yielded, e) <= cfg.maxAttempts
  {
    RunIsSound(cfg, steps);
  }

  /** The step counts a delivery of entry `e`. */
  predicate Counts(cfg: Config, s: State, step: Step, e: nat) {
    step.Act? && !step.fault.RequestLost? &&
    var cl := ClientOf(cfg, s, step.consumer);
    cl.at.CountAttempt? && cl.batch != [] && cl.batch[0] == e
  }

  /** How often deliveries of entry `e` were counted. */
  function Counted(cfg: Config, steps: seq<Step>, e: nat): nat {
    if steps == [] then 0
    else
      var front, last := steps[..|steps| - 1], steps[|steps| - 1];
      Counted(cfg, front, e) + if Counts(cfg, Run(cfg, front), last, e) then 1 else 0
  }

  /** What a thread that has entry `e` in hand knows of it, when its deliveries were counted `n` times. */
  predicate KnowsCount(cfg: Config, server: Server, cl: Client, e: nat, n: nat) {
    cl.batch != [] && cl.batch[0] == e ==>
      && (cl.at.ExpireCount? ==> cl.at.attempts <= n)
      && (cl.at.Park? ==> n > cfg.maxAttempts)
      && (cl.at.ParkUndecodable? ==> e < |server.stream| && server.stream[e].body.None?)
  }

  /** Entry `e` is parked only if it cannot be decoded, or was delivered too often. */
  ghost predicate ParkedRightly(cfg: Config, s: State, e: nat, n: nat) {
    && Attempts(s.server, e) <= n
    && (forall c: nat :: KnowsCount(cfg, s.server, ClientOf(cfg, s, c), e, n))
    && (e in s.history.parked ==> n > cfg.maxAttempts || (e < |s.server.stream| && s.server.stream[e].body.None?))
  }

  lemma CallerKnowsCount(cfg: Config, s: State, c: nat, playbookFound: bool, e: nat, n: nat)
    requires Shaped(cfg, s) && ParkedRightly(cfg, s, e, n) && InHand(s.server, ClientOf(cfg, s, c))
    ensures
      var cl := ClientOf(cfg, s, c);
      var n' := if cl.at.CountAttempt? && cl.batch != [] && cl.batch[0] == e then n + 1 else n;
      KnowsCount(cfg, s.server, Advance(cfg, s.server, c, cl, playbookFound), e, n')
  {
    assert KnowsCount(cfg, s.server, ClientOf(cfg, s, c), e, n);
  }

  lemma EffectParksRightly(cfg: Config, s: State, c: nat, playbookFound: bool, e: nat, n: nat)
    requires Shaped(cfg, s) && ParkedRightly(cfg, s, e, n) && InHand(s.server, ClientOf(cfg, s, c))
    ensures
      var cl := ClientOf(cfg, s, c);
      var n' := if cl.at.CountAttempt? && cl.batch != [] && cl.batch[0] == e then n + 1 else n;
      var (server', h') := Effect(s.server, s.history, c, cl, playbookFound);
      && Attempts(server', e) <= n' && server'.stream == s.server.stream
      && (e in h'.parked ==> n > cfg.maxAttempts || (e < |s.server.stream| && s.server.stream[e].body.None?))
  {
    assert KnowsCount(cfg, s.server, ClientOf(cfg, s, c), e, n);
  }

  lemma ProduceParksRightly(cfg: Config, s: State, step: Step, e: nat, n: nat)
    requires step.Produce? && ParkedRightly(cfg, s, e, n)
    ensures ParkedRightly(cfg, Next(cfg, s, step), e, n)
  {
    var s' := Next(cfg, s, step);
    forall c: nat ensures KnowsCount(cfg, s'.server, ClientOf(cfg, s', c), e, n) {
      assert KnowsCount(cfg, s.server, ClientOf(cfg, s, c), e, n);
    }
  }

  lemma KnowsCountStill(cfg: Config, server: Server, server': Server, cl: Client, e: nat, n: nat, n': nat)
    requires KnowsCount(cfg, server, cl, e, n) && n <= n' && server'.stream == server.stream
    ensures KnowsCount(cfg, server', cl, e, n')
  {
  }

  lemma CallParksRightly(cfg: Config, s: State, step: Step, e: nat, n: nat)
    requires step.Act? && Shaped(cfg, s) && ParkedRightly(cfg, s, e, n)
    requires InHand(s.server, ClientOf(cfg, s, step.consumer))
    ensures ParkedRightly(cfg, Next(cfg, s, step), e, n + if Counts(cfg, s, step, e) then 1 else 0)
  {
    var s', n' := Next(cfg, s, step), n + if Counts(cfg, s, step, e) then 1 else 0;
    EffectParksRightly(cfg, s, step.consumer, step.playbookFound, e, n);
    forall c: nat ensures KnowsCount(cfg, s'.server, ClientOf(cfg, s', c), e, n') {
      assert KnowsCount(cfg, s.server, ClientOf(cfg, s, c), e, n);
      if c != step.consumer {
        KnowsCountStill(cfg, s.server, s'.server, ClientOf(cfg, s, c), e, n, n');
      } else if step.fault.Fine? {
        CallerKnowsCount(cfg, s, c, step.playbookFound, e, n);
        KnowsCountStill(cfg, s.server, s'.server, ClientOf(cfg, s', c), e, n', n');
      }
    }
  }

  lemma StepParksRightly(cfg: Config, s: State, step: Step, e: nat, n: nat)
    requires Shaped(cfg, s) && ParkedRightly(cfg, s, e, n)
    ensures ParkedRightly(cfg, Next(cfg, s, step), e, n + if Counts(cfg, s, step, e) then 1 else 0)
  {
    if step.Act? {
      assert InHand(s.server, ClientOf(cfg, s, step.consumer));
      CallParksRightly(cfg, s, step, e, n);
    } else {
      ProduceParksRightly(cfg, s, step, e, n);
    }
  }

  lemma {:induction false} RunParksRightly(cfg: Config, steps: seq<Step>, e: nat)
    ensures ParkedRightly(cfg, Run(cfg, steps), e, Counted(cfg, steps, e))
  {
    if steps != [] {
      var last := |steps| - 1;
      RunParksRightly(cfg, steps[..last], e);
      StepParksRightly(cfg, Run(cfg, steps[..last]), steps[last], e, Counted(cfg, steps[..last], e));
    }
  }

  /** And none is given up early: one that decodes is parked only once it was delivered more often than allowed. */
  lemma ParkedOnlyAfterTooMany(cfg: Config, steps: seq<Step>, e: nat)
    requires e in Run(cfg, steps).history.parked && e < |Run(cfg, steps).server.stream|
    requires Run(cfg, steps).server.stream[e].body.Some?
    ensures Counted(cfg, steps, e) > cfg.maxAttempts
  {
    RunParksRightly(cfg, steps, e);
  }

  /** In the default mode, at_most_once, no entry is handed out twice, and none before its ack. */
  lemma DeliveredAtMostOnce(cfg: Config, steps: seq<Step>, e: nat)
    requires !cfg.atLeastOnce
    ensures Yields(Run(cfg, steps).history.yielded, e) <= 1
    ensures Yields(Run(cfg, steps).history.yielded, e) == 1 ==> e in Run(cfg, steps).history.acked
  {
    RunIsSound(cfg, steps);
  }

  // ---------------------------------------------------------------- recovery

  /** `n` steps of consumer `c` alone, none of which fails. */
  function Undisturbed(cfg: Config, s: State, c: nat, playbookFound: bool, n: nat): (s': State)
    requires Shaped(cfg, s)
    ensures Shaped(cfg, s')
    decreases n
  {
    if n == 0 then s
    else
      assert InHand(s.server, ClientOf(cfg, s, c));
      ShapeKept(cfg, s, Act(c, Fine, playbookFound));
      Undisturbed(cfg, Next(cfg, s, Act(c, Fine, playbookFound)), c, playbookFound, n - 1)
  }

  /** How many undisturbed steps at most separate a thread from having drained its pending entries. */
  function ToGo(cl: Client): nat {
    match cl.at
    case Top => if cl.drained then 0 else if cl.groupReady then 31 else 32
    case CountAttempt => 30
    case ExpireCount(_) => 29
    case Park => 28
    case ParkAck => 27
    case ParkForget => 26
    case AckFirst => 26
    case Yield => 25
    case ClaimEvent => 24
    case ReadEvent => 23
    case ClaimExec => 22
    case MarkRunning => 21
    case Remediate => 20
    case ReadExec => 20
    case PublishOutcome(_) => 19
    case MarkExecDone => 18
    case Resume => 17
    case MarkEventDone => 16
    case ParkUndecodable => 16
    case Ack => 15
    case Forget => 14
  }

  lemma StepCloser(cfg: Config, s: State, c: nat, playbookFound: bool)
    requires Steady(cfg, s) && cfg.atLeastOnce
    requires Parkable(cfg, s, c)
    requires InHand(s.server, ClientOf(cfg, s, c)) && ToGo(ClientOf(cfg, s, c)) > 0
    ensures ToGo(Advance(cfg, s.server, c, ClientOf(cfg, s, c), playbookFound)) < ToGo(ClientOf(cfg, s, c))
  {
    var cl := ClientOf(cfg, s, c);
    assert HoldsOne(OwnedBy(s.server.pending, c), cl);
    if cl.at.Yield? {
      assert cl.batch[0] in OwnedBy(s.server.pending, c);
    } else if !cl.at.Top? {
      MoveCloser(cfg, s.server, cl, playbookFound);
    }
  }

  lemma NothingNewPending(server: Server, h: History, c: nat, cl: Client, playbookFound: bool)
    requires InHand(server, cl) && ToGo(cl) > 0
    ensures
      var server' := Effect(server, h, c, cl, playbookFound).0;
      OwnedBy(server'.pending, c) <= OwnedBy(server.pending, c) && server'.stream == server.stream
  {
    PendingShrinksOrGrowsAtEnd(server, h, c, cl, playbookFound);
  }

  lemma MoveCloser(cfg: Config, server: Server, cl: Client, playbookFound: bool)
    requires InHand(server, cl) && !cl.at.Top? && !cl.at.Yield?
    ensures
      var move := MoveOf(cfg, server, cl, playbookFound);
      !move.Raise? && (move.Goto? ==> !move.at.Top? && ToGo(cl.(at := move.at)) < ToGo(cl))
  {
  }

  /** Every entry pending for `c` can be decoded, or else can be parked. */
  ghost predicate Parkable(cfg: Config, s: State, c: nat) {
    cfg.dlqOn ||
    forall e :: e in OwnedBy(s.server.pending, c) && e < |s.server.stream| ==> s.server.stream[e].body.Some?
  }

  ghost predicate Recovered(s: State, s': State, c: nat) {
    && OwnedBy(s'.server.pending, c) == {}
    && forall e :: e in OwnedBy(s.server.pending, c) ==> e in s'.history.acked
  }

  /**
   From any reachable state, one undisturbed pass of a consumer acks whatever it had pending,
   provided each such entry can be decoded or can be parked.
   */
  lemma RecoveryCompletes(cfg: Config, steps: seq<Step>, c: nat, playbookFound: bool)
    requires cfg.atLeastOnce && Parkable(cfg, Run(cfg, steps), c)
    ensures exists n: nat ::
      (n <= 32 && Recovered(Run(cfg, steps), Undisturbed(cfg, Run(cfg, steps), c, playbookFound, n), c))
  {
    RunIsSound(cfg, steps);
    var n := RecoverySteps(cfg, Run(cfg, steps), c, playbookFound);
  }

  ghost predicate Steady(cfg: Config, s: State) {
    Shaped(cfg, s) && PendingKept(cfg, s)
  }

  lemma OneStepOn(cfg: Config, s: State, c: nat, playbookFound: bool)
    requires Steady(cfg, s) && cfg.atLeastOnce && Parkable(cfg, s, c) && ToGo(ClientOf(cfg, s, c)) > 0
    requires InHand(s.server, ClientOf(cfg, s, c))
    ensures
      var s' := Next(cfg, s, Act(c, Fine, playbookFound));
      Steady(cfg, s') && Parkable(cfg, s', c) && ToGo(ClientOf(cfg, s', c)) < ToGo(ClientOf(cfg, s, c))
  {
    var cl := ClientOf(cfg, s, c);
    assert HoldsOne(OwnedBy(s.server.pending, c), cl);
    ShapeKept(cfg, s, Act(c, Fine, playbookFound));
    PendingKeptByStep(cfg, s, Act(c, Fine, playbookFound));
    StepCloser(cfg, s, c, playbookFound);
    NothingNewPending(s.server, s.history, c, cl, playbookFound);
    assert ClientOf(cfg, Next(cfg, s, Act(c, Fine, playbookFound)), c) == Advance(cfg, s.server, c, cl, playbookFound);
  }

  lemma {:induction false} RecoverySteps(cfg: Config, s: State, c: nat, playbookFound: bool) returns (n: nat)
    requires Steady(cfg, s) && cfg.atLeastOnce && Parkable(cfg, s, c)
    ensures n <= ToGo(ClientOf(cfg, s, c)) && Recovered(s, Undisturbed(cfg, s, c, playbookFound, n), c)
    decreases ToGo(ClientOf(cfg, s, c))
  {
    assert HoldsOne(OwnedBy(s.server.pending, c), ClientOf(cfg, s, c)) && InHand(s.server, ClientOf(cfg, s, c));
    if ToGo(ClientOf(cfg, s, c)) == 0 {
      n := 0;
    } else {
      OneStepOn(cfg, s, c, playbookFound);
      n := RecoverySteps(cfg, Next(cfg, s, Act(c, Fine, playbookFound)), c, playbookFound);
      RecoveredEarlier(cfg, s, c, playbookFound, n);
      n := n + 1;
    }
  }

  lemma RecoveredEarlier(cfg: Config, s: State, c: nat, playbookFound: bool, m: nat)
    requires Steady(cfg, s) && Steady(cfg, Next(cfg, s, Act(c, Fine, playbookFound)))
    requires
      var s' := Next(cfg, s, Act(c, Fine, playbookFound));
      Recovered(s', Undisturbed(cfg, s', c, playbookFound, m), c)
    ensures Recovered(s, Undisturbed(cfg, s, c, playbookFound, m + 1), c)
  {
    var s' := Next(cfg, s, Act(c, Fine, playbookFound));
    var s'' := Undisturbed(cfg, s', c, playbookFound, m);
    assert s'' == Undisturbed(cfg, s, c, playbookFound, m + 1);
    forall e | e in OwnedBy(s.server.pending, c) ensures e in s''.history.acked {
      if e !in OwnedBy(s'.server.pending, c) {
        PendingStaysOrAcked(cfg, s, c, playbookFound, e);
        AckedForGood(cfg, s', c, playbookFound, m, e);
      }
    }
  }

  lemma PendingStaysOrAcked(cfg: Config, s: State, c: nat, playbookFound: bool, e: nat)
    requires InHand(s.server, ClientOf(cfg, s, c))
    requires e in OwnedBy(s.server.pending, c)
    ensures
      var (server', h') := Effect(s.server, s.history, c, ClientOf(cfg, s, c), playbookFound);
      e in OwnedBy(server'.pending, c) || e in h'.acked
  {
  }

  lemma {:induction false} AckedForGood(cfg: Config, s: State, c: nat, playbookFound: bool, n: nat, e: nat)
    requires Shaped(cfg, s) && e in s.history.acked
    ensures e in Undisturbed(cfg, s, c, playbookFound, n).history.acked
    decreases n
  {
    if n > 0 {
      var step := Act(c, Fine, playbookFound);
      assert InHand(s.server, ClientOf(cfg, s, c));
      ShapeKept(cfg, s, step);
      EffectRemembers(s.server, s.history, c, ClientOf(cfg, s, c), playbookFound);
      AckedForGood(cfg, Next(cfg, s, step), c, playbookFound, n - 1, e);
    }
  }

  /** `n` steps of consumer `c` that go through, as part of a schedule. */
  function Own(c: nat, playbookFound: bool, n: nat): seq<Step> {
    seq(n, _ => Act(c, Fine, playbookFound))
  }

  lemma {:induction false} UndisturbedIsRun(cfg: Config, steps: seq<Step>, c: nat, playbookFound: bool, n: nat)
    ensures Undisturbed(cfg, Run(cfg, steps), c, playbookFound, n) == Run(cfg, steps + Own(c, playbookFound, n))
    decreases n
  {
    var act := Act(c, Fine, playbookFound);
    if n == 0 {
      assert steps + Own(c, playbookFound, 0) == steps;
    } else {
      assert InHand(Run(cfg, steps).server, ClientOf(cfg, Run(cfg, steps), c));
      RunOneMore(cfg, steps, act);
      UndisturbedIsRun(cfg, steps + [act], c, playbookFound, n - 1);
      assert (steps + [act]) + Own(c, playbookFound, n - 1) == steps + Own(c, playbookFound, n);
    }
  }

  /** Acked, and parked or with an outcome for its occurrence out. */
  ghost predicate Answered(s: State, e: nat) {
    && e in s.history.acked
    && (e in s.history.parked ||
        (e < |s.server.stream| && s.server.stream[e].body.Some? && Announced(s.history, s.server.stream[e].body.value)))
  }

  ghost predicate AllAnswered(s: State, s': State, c: nat) {
    forall e :: e in OwnedBy(s.server.pending, c) ==> Answered(s', e)
  }

  /**
   However a run has gone so far, letting a consumer work undisturbed answers every diagnosis it still has
   pending: with an outcome, or by parking what cannot be handled.
   */
  lemma EveryPendingDiagnosisIsAnswered(cfg: Config, steps: seq<Step>, c: nat, playbookFound: bool)
    requires cfg.atLeastOnce && Parkable(cfg, Run(cfg, steps), c)
    ensures exists n: nat :: n <= 32 && AllAnswered(Run(cfg, steps), Run(cfg, steps + Own(c, playbookFound, n)), c)
  {
    RecoveryCompletes(cfg, steps, c, playbookFound);
    var n: nat :| n <= 32 && Recovered(Run(cfg, steps), Undisturbed(cfg, Run(cfg, steps), c, playbookFound, n), c);
    UndisturbedIsRun(cfg, steps, c, playbookFound, n);
    var later := steps + Own(c, playbookFound, n);
    forall e | e in OwnedBy(Run(cfg, steps).server.pending, c) ensures Answered(Run(cfg, later), e) {
      NoAckBeforeOutcome(cfg, later, e);
    }
    assert AllAnswered(Run(cfg, steps), Run(cfg, later), c);
  }

  /** The proviso of RecoveryCompletes is needed: undecodable with the DLQ off, an entry is never acked. */
  lemma PoisonIsNeverAcked(cfg: Config, steps: seq<Step>, e: nat)
    requires cfg.atLeastOnce && !cfg.dlqOn
    requires e < |Run(cfg, steps).server.stream| && Run(cfg, steps).server.stream[e].body.None?
    ensures e !in Run(cfg, steps).history.acked
  {
    RunIsSound(cfg, steps);
    if e in Run(cfg, steps).history.acked {
      NoAckBeforeOutcome(cfg, steps, e);
    }
  }
}
