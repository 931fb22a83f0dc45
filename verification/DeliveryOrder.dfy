/** Order and number of deliveries under at_least_once. */
module DeliveryOrder {
  import opened Delivery
  import opened DeliverySafety

  /** How often entry `e` was handed to a caller, by any consumer, over all restarts. */
  function Yields(yielded: seq<(nat, nat)>, e: nat): nat {
    if yielded == [] then 0
    else
      var last := |yielded| - 1;
      Yields(yielded[..last], e) + if yielded[last].1 == e then 1 else 0
  }

  ghost predicate InOrder(server: Server, h: History) {
    var yielded := h.yielded;
    && (forall y :: y in yielded ==> y.1 < server.delivered)
    && (forall i, j :: 0 <= i < j < |yielded| && yielded[i].0 == yielded[j].0 ==> yielded[i].1 <= yielded[j].1)
    && (forall y, e :: y in yielded && e in OwnedBy(server.pending, y.0) ==> y.1 <= e)
  }

  lemma InOrderByStep(cfg: Config, s: State, step: Step)
    requires Shaped(cfg, s) && PendingKept(cfg, s) && cfg.atLeastOnce && InOrder(s.server, s.history)
    ensures InOrder(Next(cfg, s, step).server, Next(cfg, s, step).history)
  {
    if step.Act? {
      var c := step.consumer;
      var cl := ClientOf(cfg, s, c);
      assert InHand(s.server, cl) && HoldsOne(OwnedBy(s.server.pending, c), cl);
      InOrderByCall(cfg, s, c, step.playbookFound);
    }
  }

  lemma InOrderByCall(cfg: Config, s: State, c: nat, playbookFound: bool)
    requires Shaped(cfg, s) && InOrder(s.server, s.history)
    requires InHand(s.server, ClientOf(cfg, s, c))
    requires HoldsOne(OwnedBy(s.server.pending, c), ClientOf(cfg, s, c))
    ensures
      var (server', h') := Effect(s.server, s.history, c, ClientOf(cfg, s, c), playbookFound);
      InOrder(server', h')
  {
    var cl := ClientOf(cfg, s, c);
    var (server', h') := Effect(s.server, s.history, c, cl, playbookFound);
    EffectGrows(s.server, s.history, c, cl, playbookFound);
    PendingShrinksOrGrowsAtEnd(s.server, s.history, c, cl, playbookFound);
    forall y, e | y in h'.yielded && e in OwnedBy(server'.pending, y.0) ensures y.1 <= e {
      assert e in OwnedBy(s.server.pending, y.0) || e == s.server.delivered;
      assert y in s.history.yielded || y == (c, cl.batch[0]);
    }
    if h'.yielded != s.history.yielded {
      assert cl.batch[0] in OwnedBy(s.server.pending, c) && cl.batch[0] in cl.batch;
      assert forall i :: 0 <= i < |s.history.yielded| ==> s.history.yielded[i] in s.history.yielded;
    }
  }

  lemma PendingShrinksOrGrowsAtEnd(server: Server, h: History, c: nat, cl: Client, playbookFound: bool)
    requires InHand(server, cl)
    ensures
      var (server', h') := Effect(server, h, c, cl, playbookFound);
      && (forall e :: e in server'.pending ==>
            (e in server.pending && server'.pending[e] == server.pending[e]) || e == server.delivered)
      && (h'.yielded == h.yielded ||
        (cl.at.Yield? && h'.yielded == h.yielded + [(c, cl.batch[0])] && server' == server))
  {
  }

  /** What was handed to a consumer is acked, or still pending for that consumer. */
  ghost predicate YieldsAccounted(server: Server, h: History) {
    forall y :: y in h.yielded ==> y.1 in h.acked || y.1 in OwnedBy(server.pending, y.0)
  }

  lemma YieldsAccountedByCall(cfg: Config, s: State, c: nat, playbookFound: bool)
    requires Shaped(cfg, s) && Accounted(s) && YieldsAccounted(s.server, s.history)
    requires InHand(s.server, ClientOf(cfg, s, c))
    requires HoldsOne(OwnedBy(s.server.pending, c), ClientOf(cfg, s, c))
    ensures
      var (server', h') := Effect(s.server, s.history, c, ClientOf(cfg, s, c), playbookFound);
      YieldsAccounted(server', h')
  {
    var cl := ClientOf(cfg, s, c);
    var (server', h') := Effect(s.server, s.history, c, cl, playbookFound);
    PendingChange(s.server, s.history, c, cl, playbookFound);
    PendingShrinksOrGrowsAtEnd(s.server, s.history, c, cl, playbookFound);
    forall y | y in h'.yielded ensures y.1 in h'.acked || y.1 in OwnedBy(server'.pending, y.0) {
      if y in s.history.yielded {
        assert y.1 in s.history.acked || y.1 in OwnedBy(s.server.pending, y.0);
      } else {
        assert y == (c, cl.batch[0]) && cl.batch[0] in OwnedBy(s.server.pending, c);
      }
    }
  }

  lemma YieldsAccountedByStep(cfg: Config, s: State, step: Step)
    requires Shaped(cfg, s) && PendingKept(cfg, s) && cfg.atLeastOnce && YieldsAccounted(s.server, s.history)
    ensures YieldsAccounted(Next(cfg, s, step).server, Next(cfg, s, step).history)
  {
    if step.Act? {
      var cl := ClientOf(cfg, s, step.consumer);
      assert InHand(s.server, cl) && HoldsOne(OwnedBy(s.server.pending, step.consumer), cl);
      YieldsAccountedByCall(cfg, s, step.consumer, step.playbookFound);
    }
  }

  // ---------------------------------------------------------------- bounded redelivery

  /** A counted delivery is ahead of the yields so far; a forgotten counter belongs to an acked entry. */
  predicate CountedAhead(cfg: Config, server: Server, h: History, cl: Client) {
    cl.batch != [] ==>
      var e := cl.batch[0];
      && (cl.at.ExpireCount? ==> cl.at.attempts == Attempts(server, e) && Yields(h.yielded, e) < cl.at.attempts)
      && (cl.at.Yield? ==> Yields(h.yielded, e) < Attempts(server, e) && Yields(h.yielded, e) < cfg.maxAttempts)
      && (cl.at.ParkForget? || cl.at.Forget? ==> e in h.acked)
  }

  ghost predicate Bounded(cfg: Config, s: State) {
    && (forall e: nat :: Yields(s.history.yielded, e) <= cfg.maxAttempts)
    && (forall e: nat :: s.server.delivered <= e ==> Yields(s.history.yielded, e) == 0)
    && (forall e :: e in s.server.pending ==> Yields(s.history.yielded, e) <= Attempts(s.server, e))
    && (forall c: nat :: CountedAhead(cfg, s.server, s.history, ClientOf(cfg, s, c)))
  }

  lemma YieldBoundsByCall(cfg: Config, s: State, c: nat, playbookFound: bool, e: nat)
    requires Shaped(cfg, s) && PendingKept(cfg, s) && cfg.atLeastOnce && cfg.dlqOn && Bounded(cfg, s)
    requires InHand(s.server, ClientOf(cfg, s, c))
    ensures
      var (server', h') := Effect(s.server, s.history, c, ClientOf(cfg, s, c), playbookFound);
      && Yields(h'.yielded, e) <= cfg.maxAttempts
      && (server'.delivered <= e ==> Yields(h'.yielded, e) == 0)
      && (e in server'.pending ==> Yields(h'.yielded, e) <= Attempts(server', e))
  {
    var cl := ClientOf(cfg, s, c);
    assert HoldsOne(OwnedBy(s.server.pending, c), cl) && CountedAhead(cfg, s.server, s.history, cl);
    PendingShrinksOrGrowsAtEnd(s.server, s.history, c, cl, playbookFound);
    AttemptsChange(s.server, s.history, c, cl, playbookFound);
    EffectGrows(s.server, s.history, c, cl, playbookFound);
    if cl.at.Yield? {
      assert cl.batch[0] in OwnedBy(s.server.pending, c);
      YieldsAppend(s.history.yielded, (c, cl.batch[0]), e);
    }
  }

  lemma BoundedByCall(cfg: Config, s: State, step: Step)
    requires Shaped(cfg, s) && PendingKept(cfg, s) && cfg.atLeastOnce && cfg.dlqOn && Bounded(cfg, s) && step.Act?
    ensures Bounded(cfg, Next(cfg, s, step))
  {
    var c, pb := step.consumer, step.playbookFound;
    var s' := Next(cfg, s, step);
    assert InHand(s.server, ClientOf(cfg, s, c));
    forall e: nat ensures Yields(s'.history.yielded, e) <= cfg.maxAttempts
      ensures s'.server.delivered <= e ==> Yields(s'.history.yielded, e) == 0
      ensures e in s'.server.pending ==> Yields(s'.history.yielded, e) <= Attempts(s'.server, e)
    {
      YieldBoundsByCall(cfg, s, c, pb, e);
    }
    forall d: nat ensures CountedAhead(cfg, s'.server, s'.history, ClientOf(cfg, s', d)) {
      assert CountedAhead(cfg, s.server, s.history, ClientOf(cfg, s, d));
      if d != c {
        OtherCountedAhead(cfg, s, c, pb, d);
      } else if step.fault.Fine? {
        CallerCountedAhead(cfg, s, c, pb);
      }
    }
  }

  lemma OtherCountedAhead(cfg: Config, s: State, c: nat, playbookFound: bool, d: nat)
    requires Shaped(cfg, s) && PendingKept(cfg, s) && cfg.atLeastOnce && Bounded(cfg, s) && c != d
    requires InHand(s.server, ClientOf(cfg, s, c))
    ensures
      var (server', h') := Effect(s.server, s.history, c, ClientOf(cfg, s, c), playbookFound);
      CountedAhead(cfg, server', h', ClientOf(cfg, s, d))
  {
    var cl, dl := ClientOf(cfg, s, c), ClientOf(cfg, s, d);
    assert CountedAhead(cfg, s.server, s.history, dl) && HoldsOne(OwnedBy(s.server.pending, d), dl);
    assert CountedAhead(cfg, s.server, s.history, cl) && HoldsOne(OwnedBy(s.server.pending, c), cl);
    PendingShrinksOrGrowsAtEnd(s.server, s.history, c, cl, playbookFound);
    AttemptsChange(s.server, s.history, c, cl, playbookFound);
    EffectRemembers(s.server, s.history, c, cl, playbookFound);
    if dl.at.ExpireCount? || dl.at.Yield? {
      assert dl.batch[0] in OwnedBy(s.server.pending, d);
      if !cl.at.Top? && !cl.at.ParkForget? && !cl.at.Forget? {
        assert cl.batch[0] in OwnedBy(s.server.pending, c);
      }
      assert cl.batch != [] ==> cl.batch[0] != dl.batch[0];
      if cl.at.Yield? {
        YieldsAppend(s.history.yielded, (c, cl.batch[0]), dl.batch[0]);
      }
    }
  }

  lemma CallerCountedAhead(cfg: Config, s: State, c: nat, playbookFound: bool)
    requires Shaped(cfg, s) && PendingKept(cfg, s) && cfg.atLeastOnce && cfg.dlqOn && Bounded(cfg, s)
    requires InHand(s.server, ClientOf(cfg, s, c))
    ensures
      var cl := ClientOf(cfg, s, c);
      var (server', h') := Effect(s.server, s.history, c, cl, playbookFound);
      CountedAhead(cfg, server', h', Advance(cfg, s.server, c, cl, playbookFound))
  {
    var cl := ClientOf(cfg, s, c);
    assert CountedAhead(cfg, s.server, s.history, cl) && HoldsOne(OwnedBy(s.server.pending, c), cl);
    if !cl.at.Top? {
      CountComesFrom(cfg, s.server, cl, playbookFound);
      PendingShrinksOrGrowsAtEnd(s.server, s.history, c, cl, playbookFound);
      AttemptsChange(s.server, s.history, c, cl, playbookFound);
      if cl.at.CountAttempt? {
        assert cl.batch[0] in OwnedBy(s.server.pending, c);
      }
    }
  }

  lemma CountComesFrom(cfg: Config, server: Server, cl: Client, playbookFound: bool)
    requires InHand(server, cl) && !cl.at.Top? && cfg.atLeastOnce
    ensures
      var move := MoveOf(cfg, server, cl, playbookFound);
      && (move == Finish ==> cl.at.ParkForget? || cl.at.Forget? || cl.at.Ack?)
      && (move.Goto? && move.at.ExpireCount? ==>
        cl.at.CountAttempt? && move.at.attempts == Attempts(server, cl.batch[0]) + 1)
      && (move.Goto? && move.at.Yield? ==> cl.at.AckFirst? || (cl.at.ExpireCount? && cl.at.attempts <= cfg.maxAttempts))
      && (move.Goto? && move.at.ParkForget? ==> cl.at.ParkAck?)
      && (move.Goto? && move.at.Forget? ==> cl.at.Ack?)
  {
  }

  lemma YieldsAppend(yielded: seq<(nat, nat)>, y: (nat, nat), e: nat)
    ensures Yields(yielded + [y], e) == Yields(yielded, e) + if y.1 == e then 1 else 0
  {
    assert (yielded + [y])[..|yielded|] == yielded;
  }

  lemma AttemptsChange(server: Server, h: History, c: nat, cl: Client, playbookFound: bool)
    requires InHand(server, cl)
    ensures
      var server' := Effect(server, h, c, cl, playbookFound).0;
      && (forall e: nat :: (cl.batch != [] ==> e != cl.batch[0]) ==> Attempts(server', e) == Attempts(server, e))
      && (cl.batch != [] && !cl.at.ParkForget? && !cl.at.Forget? ==>
            Attempts(server', cl.batch[0]) == Attempts(server, cl.batch[0]) + if cl.at.CountAttempt? then 1 else 0)
  {
  }

  // ---------------------------------------------------------------- at most one delivery

  /** Read but not yet handed out. */
  predicate ToBeYielded(cl: Client) {
    cl.at.AckFirst? || cl.at.Yield?
  }

  /** The positions of a thread that acks first: it holds at most one entry, and acks it before anything else. */
  ghost predicate AcksFirst(h: History, cl: Client) {
    && !cl.at.CountAttempt? && !cl.at.ExpireCount? && cl.drained
    && |cl.batch| <= 1
    && (ToBeYielded(cl) ==> cl.batch != [] && Yields(h.yielded, cl.batch[0]) == 0)
    && (cl.at.Yield? ==> cl.batch[0] in h.acked)
  }

  ghost predicate YieldedOnce(s: State) {
    && (forall e: nat :: Yields(s.history.yielded, e) <= 1)
    && (forall e: nat :: Yields(s.history.yielded, e) > 0 ==> e in s.history.acked && e < s.server.delivered)
  }

  /** Under at_most_once no two threads are about to hand out the same entry, and none hands it out again. */
  ghost predicate OnceOnly(cfg: Config, s: State) {
    && YieldedOnce(s)
    && (forall c: nat :: AcksFirst(s.history, ClientOf(cfg, s, c)))
    && (forall c: nat, d: nat :: c != d ==> Apart(ClientOf(cfg, s, c), ClientOf(cfg, s, d)))
  }

  predicate Apart(cl: Client, dl: Client) {
    ToBeYielded(cl) && ToBeYielded(dl) ==> cl.batch != dl.batch
  }

  lemma YieldedOnceByCall(cfg: Config, s: State, c: nat, playbookFound: bool)
    requires Shaped(cfg, s) && OnceOnly(cfg, s)
    requires InHand(s.server, ClientOf(cfg, s, c))
    ensures
      var (server', h') := Effect(s.server, s.history, c, ClientOf(cfg, s, c), playbookFound);
      YieldedOnce(State(server', h', s.clients))
  {
    var cl := ClientOf(cfg, s, c);
    var (server', h') := Effect(s.server, s.history, c, cl, playbookFound);
    EffectGrows(s.server, s.history, c, cl, playbookFound);
    EffectRemembers(s.server, s.history, c, cl, playbookFound);
    PendingShrinksOrGrowsAtEnd(s.server, s.history, c, cl, playbookFound);
    assert AcksFirst(s.history, cl);
    if cl.at.Yield? {
      assert cl.batch[0] in cl.batch;
      forall e: nat ensures Yields(h'.yielded, e) == Yields(s.history.yielded, e) + if cl.batch[0] == e then 1 else 0 {
        YieldsAppend(s.history.yielded, (c, cl.batch[0]), e);
      }
    }
  }

  /** Where a thread that acks first goes next. */
  lemma AcksFirstMoves(cfg: Config, server: Server, cl: Client, playbookFound: bool)
    requires InHand(server, cl) && !cl.at.Top? && !cfg.atLeastOnce
    requires !cl.at.CountAttempt? && !cl.at.ExpireCount?
    ensures
      var move := MoveOf(cfg, server, cl, playbookFound);
      && (move.Goto? ==> !move.at.AckFirst? && !move.at.CountAttempt? && !move.at.ExpireCount?)
      && (move.Goto? && move.at.Yield? ==> cl.at.AckFirst?)
  {
  }

  lemma CallerAcksFirst(cfg: Config, s: State, c: nat, playbookFound: bool)
    requires Shaped(cfg, s) && OnceOnly(cfg, s) && !cfg.atLeastOnce
    requires InHand(s.server, ClientOf(cfg, s, c))
    ensures
      var cl := ClientOf(cfg, s, c);
      var cl' := Advance(cfg, s.server, c, cl, playbookFound);
      && AcksFirst(Effect(s.server, s.history, c, cl, playbookFound).1, cl')
      && (ToBeYielded(cl') ==> (cl.at.AckFirst? && cl'.batch == cl.batch) || cl'.batch == [s.server.delivered])
  {
    var cl := ClientOf(cfg, s, c);
    assert AcksFirst(s.history, cl);
    PendingShrinksOrGrowsAtEnd(s.server, s.history, c, cl, playbookFound);
    if cl.at.Top? {
      assert Yields(s.history.yielded, s.server.delivered) == 0;
    } else {
      AcksFirstMoves(cfg, s.server, cl, playbookFound);
      assert cl.batch[1..] == [];
    }
  }

  lemma OthersAckFirst(cfg: Config, s: State, c: nat, playbookFound: bool, d: nat)
    requires Shaped(cfg, s) && OnceOnly(cfg, s) && c != d
    requires InHand(s.server, ClientOf(cfg, s, c))
    ensures AcksFirst(Effect(s.server, s.history, c, ClientOf(cfg, s, c), playbookFound).1, ClientOf(cfg, s, d))
  {
    var cl, dl := ClientOf(cfg, s, c), ClientOf(cfg, s, d);
    assert AcksFirst(s.history, dl) && AcksFirst(s.history, cl);
    EffectRemembers(s.server, s.history, c, cl, playbookFound);
    PendingShrinksOrGrowsAtEnd(s.server, s.history, c, cl, playbookFound);
    if cl.at.Yield? && ToBeYielded(dl) {
      assert Apart(cl, dl) && cl.batch != dl.batch && cl.batch == [cl.batch[0]] && dl.batch == [dl.batch[0]];
      YieldsAppend(s.history.yielded, (c, cl.batch[0]), dl.batch[0]);
    }
  }

  lemma OnceOnlyByCall(cfg: Config, s: State, step: Step)
    requires Shaped(cfg, s) && OnceOnly(cfg, s) && !cfg.atLeastOnce && step.Act?
    ensures OnceOnly(cfg, Next(cfg, s, step))
  {
    var c, pb := step.consumer, step.playbookFound;
    var s' := Next(cfg, s, step);
    assert InHand(s.server, ClientOf(cfg, s, c));
    YieldedOnceByCall(cfg, s, c, pb);
    CallerAcksFirst(cfg, s, c, pb);
    forall d: nat ensures AcksFirst(s'.history, ClientOf(cfg, s', d)) {
      if d != c {
        OthersAckFirst(cfg, s, c, pb, d);
        assert AcksFirst(s.history, ClientOf(cfg, s, d));
      }
    }
    forall d: nat, e: nat | d != e ensures Apart(ClientOf(cfg, s', d), ClientOf(cfg, s', e)) {
      assert Apart(ClientOf(cfg, s, d), ClientOf(cfg, s, e));
      if d == c {
        StaysApart(cfg, s, c, pb, e);
      } else if e == c {
        StaysApart(cfg, s, c, pb, d);
      }
    }
  }

  /** A freshly read entry is in nobody else's hands. */
  lemma StaysApart(cfg: Config, s: State, c: nat, playbookFound: bool, d: nat)
    requires Shaped(cfg, s) && OnceOnly(cfg, s) && !cfg.atLeastOnce && c != d
    requires InHand(s.server, ClientOf(cfg, s, c))
    ensures Apart(Advance(cfg, s.server, c, ClientOf(cfg, s, c), playbookFound), ClientOf(cfg, s, d))
  {
    var dl := ClientOf(cfg, s, d);
    CallerAcksFirst(cfg, s, c, playbookFound);
    assert Apart(ClientOf(cfg, s, c), dl);
    assert InHand(s.server, dl) && AcksFirst(s.history, dl);
    assert dl.batch != [] ==> dl.batch[0] in dl.batch;
  }

  lemma OnceOnlyByProduce(cfg: Config, s: State, step: Step)
    requires OnceOnly(cfg, s) && step.Produce?
    ensures OnceOnly(cfg, Next(cfg, s, step))
  {
    var s' := Next(cfg, s, step);
    forall c: nat ensures ClientOf(cfg, s', c) == ClientOf(cfg, s, c) && AcksFirst(s'.history, ClientOf(cfg, s', c)) {
      assert AcksFirst(s.history, ClientOf(cfg, s, c));
    }
  }
}
