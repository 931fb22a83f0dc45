/** What every run of the delivery machine keeps. */
module DeliverySafety {
  import opened Prelude
  import opened Delivery

  // ---------------------------------------------------------------- at most one execution

  /** The thread won the execution claim of `o` and has not reported on it yet. */
  predicate Owns(server: Server, cl: Client, o: Occurrence)
    requires InHand(server, cl)
  {
    (cl.at.MarkRunning? || cl.at.Remediate? || (cl.at.PublishOutcome? && cl.at.kind != Interrupted)) &&
    OccurrenceOf(server, cl) == o
  }

  predicate Conclusive(a: Announcement) {
    a.kind != Interrupted
  }

  ghost predicate Concluded(h: History, o: Occurrence) {
    exists a :: a in h.outcomes && Conclusive(a) && a.occurrence == o
  }

  /** What owning a claim entails. */
  ghost predicate OwnerKnows(server: Server, h: History, cl: Client, o: Occurrence) {
    && ExecKey(o) in server.marks
    && !Concluded(h, o)
    && (cl.at.PublishOutcome? ==> (cl.at.kind == Ran <==> o in h.started))
    && (!cl.at.PublishOutcome? ==> o !in h.started)
  }

  ghost predicate RecordsKept(server: Server, h: History) {
    && (forall o :: o in h.started ==> ExecKey(o) in server.marks)
    && (forall i, j :: 0 <= i < j < |h.started| ==> h.started[i] != h.started[j])
    && (forall a :: a in h.outcomes && Conclusive(a) ==>
          ExecKey(a.occurrence) in server.marks && (a.kind == Ran <==> a.occurrence in h.started))
    && (forall i, j :: 0 <= i < j < |h.outcomes| && Conclusive(h.outcomes[i]) && Conclusive(h.outcomes[j]) ==>
          h.outcomes[i].occurrence != h.outcomes[j].occurrence)
  }

  ghost predicate ClaimsKept(cfg: Config, s: State)
    requires Shaped(cfg, s)
  {
    && RecordsKept(s.server, s.history)
    && (forall c: nat, o :: Owns(s.server, ClientOf(cfg, s, c), o) ==>
          OwnerKnows(s.server, s.history, ClientOf(cfg, s, c), o))
    && (forall c: nat, d: nat, o ::
          Owns(s.server, ClientOf(cfg, s, c), o) && Owns(s.server, ClientOf(cfg, s, d), o) ==> c == d)
  }

  lemma OwnerComesFrom(cfg: Config, server: Server, cl: Client, playbookFound: bool)
    requires InHand(server, cl) && !cl.at.Top?
    ensures
      var move := MoveOf(cfg, server, cl, playbookFound);
      && (move == Goto(MarkRunning) ==> cl.at.ClaimExec? && ExecKeyOf(server, cl) !in server.marks)
      && (move == Goto(Remediate) ==> cl.at.MarkRunning?)
      && (move.Goto? && move.at.PublishOutcome? && move.at.kind != Interrupted ==>
            cl.at.Remediate? && (move.at.kind == Ran <==> playbookFound))
  {
  }

  /** Where a thread that owns a claim after a call stood before it. */
  lemma OwnerStood(cfg: Config, server: Server, c: nat, cl: Client, playbookFound: bool)
    requires InHand(server, cl)
    ensures
      var at' := Advance(cfg, server, c, cl, playbookFound).at;
      && (at'.MarkRunning? ==> cl.at.ClaimExec? && ExecKeyOf(server, cl) !in server.marks)
      && (at'.Remediate? ==> cl.at.MarkRunning?)
      && (at'.PublishOutcome? && at'.kind != Interrupted ==> cl.at.Remediate? && (at'.kind == Ran <==> playbookFound))
  {
    if !cl.at.Top? {
      OwnerComesFrom(cfg, server, cl, playbookFound);
    }
  }

  /** Winning the claim: nothing was started or concluded for an occurrence whose key was not set. */
  lemma ClaimWon(server: Server, h: History, c: nat, cl: Client, playbookFound: bool, cl': Client)
    requires InHand(server, cl) && RecordsKept(server, h)
    requires cl.at.ClaimExec? && ExecKeyOf(server, cl) !in server.marks && cl'.at.MarkRunning?
    ensures
      var (server', h') := Effect(server, h, c, cl, playbookFound);
      OwnerKnows(server', h', cl', OccurrenceOf(server, cl))
  {
  }

  lemma StillOwned(server: Server, h: History, c: nat, cl: Client, playbookFound: bool, cl': Client)
    requires InHand(server, cl)
    requires (cl.at.MarkRunning? && cl'.at.Remediate?) ||
             (cl.at.Remediate? && cl'.at.PublishOutcome? && (cl'.at.kind == Ran <==> playbookFound))
    requires OwnerKnows(server, h, cl, OccurrenceOf(server, cl))
    ensures
      var (server', h') := Effect(server, h, c, cl, playbookFound);
      OwnerKnows(server', h', cl', OccurrenceOf(server, cl))
  {
  }

  /** A thread comes to own a claim only by setting the key, and then knows what owning it entails. */
  lemma OwnsAfter(cfg: Config, server: Server, h: History, c: nat, cl: Client, playbookFound: bool, o: Occurrence)
    requires InHand(server, cl) && RecordsKept(server, h)
    requires forall p :: Owns(server, cl, p) ==> OwnerKnows(server, h, cl, p)
    requires
      var (server', h') := Effect(server, h, c, cl, playbookFound);
      var cl' := Advance(cfg, server, c, cl, playbookFound);
      InHand(server', cl') && Owns(server', cl', o)
    ensures
      var (server', h') := Effect(server, h, c, cl, playbookFound);
      && OwnerKnows(server', h', Advance(cfg, server, c, cl, playbookFound), o)
      && (Owns(server, cl, o) || ExecKey(o) !in server.marks)
  {
    var cl' := Advance(cfg, server, c, cl, playbookFound);
    OwnerStood(cfg, server, c, cl, playbookFound);
    assert cl'.batch == cl.batch && OccurrenceOf(server, cl) == o;
    if cl.at.ClaimExec? {
      ClaimWon(server, h, c, cl, playbookFound, cl');
    } else {
      assert Owns(server, cl, o);
      StillOwned(server, h, c, cl, playbookFound, cl');
    }
  }

  /** The records change only at an owner's hand. */
  lemma OnlyOwnersRecord(server: Server, h: History, c: nat, cl: Client, playbookFound: bool)
    requires InHand(server, cl)
    ensures
      var h' := Effect(server, h, c, cl, playbookFound).1;
      && (h'.started != h.started ==> cl.at.Remediate? && h'.started == h.started + [OccurrenceOf(server, cl)])
      && (h'.outcomes != h.outcomes ==>
            cl.at.PublishOutcome? && h'.outcomes == h.outcomes + [Announcement(OccurrenceOf(server, cl), cl.at.kind)])
  {
  }

  lemma RecordsKeptByCall(server: Server, h: History, c: nat, cl: Client, playbookFound: bool)
    requires InHand(server, cl) && server.delivered <= |server.stream| && RecordsKept(server, h)
    requires forall p :: Owns(server, cl, p) ==> OwnerKnows(server, h, cl, p)
    ensures
      var (server', h') := Effect(server, h, c, cl, playbookFound);
      RecordsKept(server', h')
  {
    var (server', h') := Effect(server, h, c, cl, playbookFound);
    EffectGrows(server, h, c, cl, playbookFound);
    OnlyOwnersRecord(server, h, c, cl, playbookFound);
    if h'.started != h.started {
      var o := OccurrenceOf(server, cl);
      assert Owns(server, cl, o);
      forall i, j | 0 <= i < j < |h'.started| ensures h'.started[i] != h'.started[j] {
        assert h.started[i] in h.started;
      }
    } else if h'.outcomes != h.outcomes {
      var a := Announcement(OccurrenceOf(server, cl), cl.at.kind);
      assert Conclusive(a) ==> Owns(server, cl, a.occurrence);
      forall i, j | 0 <= i < j < |h'.outcomes| && Conclusive(h'.outcomes[i]) && Conclusive(h'.outcomes[j])
        ensures h'.outcomes[i].occurrence != h'.outcomes[j].occurrence
      {
        assert h.outcomes[i] in h.outcomes;
      }
    }
  }

  /** What another owner knows survives the call: the caller can only touch a claim it owns itself. */
  lemma OtherOwnersUndisturbed(cfg: Config, s: State, c: nat, playbookFound: bool, d: nat, o: Occurrence)
    requires Shaped(cfg, s) && ClaimsKept(cfg, s) && c != d
    requires InHand(s.server, ClientOf(cfg, s, c)) && InHand(s.server, ClientOf(cfg, s, d))
    requires Owns(s.server, ClientOf(cfg, s, d), o)
    ensures
      var (server', h') := Effect(s.server, s.history, c, ClientOf(cfg, s, c), playbookFound);
      OwnerKnows(server', h', ClientOf(cfg, s, d), o)
  {
    var cl := ClientOf(cfg, s, c);
    var (server', h') := Effect(s.server, s.history, c, cl, playbookFound);
    EffectGrows(s.server, s.history, c, cl, playbookFound);
    OnlyOwnersRecord(s.server, s.history, c, cl, playbookFound);
    assert OwnerKnows(s.server, s.history, ClientOf(cfg, s, d), o);
    assert !Owns(s.server, cl, o);
    assert forall a :: a in h'.outcomes && Conclusive(a) && a.occurrence == o ==> a in s.history.outcomes;
  }

  lemma ClaimsKeptByStep(cfg: Config, s: State, step: Step)
    requires Shaped(cfg, s) && Shaped(cfg, Next(cfg, s, step))
    requires ClaimsKept(cfg, s)
    ensures ClaimsKept(cfg, Next(cfg, s, step))
  {
    if step.Produce? {
      var s' := Next(cfg, s, step);
      forall d: nat, o ensures Owns(s'.server, ClientOf(cfg, s', d), o) == Owns(s.server, ClientOf(cfg, s, d), o) {
        assert InHand(s.server, ClientOf(cfg, s, d));
      }
    } else {
      ClaimsKeptByCall(cfg, s, step);
    }
  }

  lemma ClaimsKeptByCall(cfg: Config, s: State, step: Step)
    requires Shaped(cfg, s) && Shaped(cfg, Next(cfg, s, step)) && step.Act?
    requires ClaimsKept(cfg, s)
    ensures ClaimsKept(cfg, Next(cfg, s, step))
  {
    var s' := Next(cfg, s, step);
    var c, pb := step.consumer, step.playbookFound;
    var cl := ClientOf(cfg, s, c);
    assert InHand(s.server, cl);
    RecordsKeptByCall(s.server, s.history, c, cl, pb);
    EffectGrows(s.server, s.history, c, cl, pb);
    forall d: nat, o | d != c && Owns(s'.server, ClientOf(cfg, s', d), o)
      ensures Owns(s.server, ClientOf(cfg, s, d), o) && OwnerKnows(s'.server, s'.history, ClientOf(cfg, s', d), o)
    {
      assert InHand(s.server, ClientOf(cfg, s, d));
      assert Owns(s.server, ClientOf(cfg, s, d), o);
      OtherOwnersUndisturbed(cfg, s, c, pb, d, o);
    }
    forall o | Owns(s'.server, ClientOf(cfg, s', c), o)
      ensures OwnerKnows(s'.server, s'.history, ClientOf(cfg, s', c), o)
      ensures Owns(s.server, cl, o) || ExecKey(o) !in s.server.marks
    {
      OwnsAfter(cfg, s.server, s.history, c, cl, pb, o);
    }
  }

  // ---------------------------------------------------------------- nothing is lost

  function OwnedBy(pending: map<nat, nat>, c: nat): set<nat> {
    set e | e in pending && pending[e] == c
  }

  /** A delivered entry is pending or acked, never both. */
  ghost predicate Accounted(s: State) {
    && (forall e :: e in s.server.pending || e in s.history.acked ==> e < s.server.delivered)
    && (forall e: nat :: e < s.server.delivered ==> (e in s.server.pending <==> e !in s.history.acked))
  }

  /** Under at_least_once: the only entry a consumer has pending is the one its thread has in hand. */
  predicate HoldsOne(owned: set<nat>, cl: Client) {
    && (forall e, f :: e in owned && f in owned ==> e == f)
    && !cl.at.AckFirst?
    && (cl.at.Top? ==> cl.batch == [] && (cl.drained ==> owned == {}))
    && (!cl.at.Top? ==> |cl.batch| == 1 && cl.drained)
    && (cl.at.ParkForget? || cl.at.Forget? ==> owned == {})
    && (!cl.at.Top? && !cl.at.ParkForget? && !cl.at.Forget? ==> owned == {cl.batch[0]})
  }

  ghost predicate PendingKept(cfg: Config, s: State) {
    && Accounted(s)
    && (cfg.atLeastOnce ==> forall c: nat :: HoldsOne(OwnedBy(s.server.pending, c), ClientOf(cfg, s, c)))
  }

  lemma {:induction false} PendingOfIncreasing(pending: map<nat, nat>, c: nat, n: nat)
    ensures forall i, j :: 0 <= i < j < |PendingOf(pending, c, n)| ==>
      PendingOf(pending, c, n)[i] < PendingOf(pending, c, n)[j]
  {
    if n > 0 {
      PendingOfIncreasing(pending, c, n - 1);
      PendingOfMembers(pending, c, n - 1);
      var shorter := PendingOf(pending, c, n - 1);
      forall i | 0 <= i < |shorter| ensures shorter[i] < n - 1 {
        assert shorter[i] in shorter;
      }
    }
  }

  lemma TwoMembers(increasing: seq<nat>)
    requires |increasing| > 1 && forall i, j :: 0 <= i < j < |increasing| ==> increasing[i] < increasing[j]
    ensures exists e, f :: e in increasing && f in increasing && e != f
  {
    assert increasing[0] in increasing && increasing[1] in increasing;
  }

  /** With at most one entry pending, one bounded drain pass reads exactly what is pending. */
  lemma DrainReadsAll(server: Server, c: nat)
    requires forall e, f :: e in OwnedBy(server.pending, c) && f in OwnedBy(server.pending, c) ==> e == f
    requires forall e :: e in server.pending ==> e < server.delivered
    ensures
      var batch := FirstBatch(PendingOf(server.pending, c, server.delivered));
      && |batch| <= 1
      && OwnedBy(server.pending, c) == set e | e in batch
  {
    var all := PendingOf(server.pending, c, server.delivered);
    PendingOfIncreasing(server.pending, c, server.delivered);
    PendingOfMembers(server.pending, c, server.delivered);
    assert forall e :: e in all ==> e in OwnedBy(server.pending, c);
    if |all| > 1 {
      TwoMembers(all);
    }
    assert FirstBatch(all) == all;
    assert forall e :: e in OwnedBy(server.pending, c) <==> e in all;
  }

  /** What a call does to pending and acked entries: one may be delivered, one may be acked. */
  lemma PendingChange(server: Server, h: History, c: nat, cl: Client, playbookFound: bool)
    requires InHand(server, cl)
    ensures
      var (server', h') := Effect(server, h, c, cl, playbookFound);
      if cl.at.AckFirst? || cl.at.ParkAck? || cl.at.Ack? then
        server'.delivered == server.delivered &&
        server'.pending == server.pending - {cl.batch[0]} && h'.acked == h.acked + {cl.batch[0]}
      else
        && h'.acked == h.acked
        && ((server'.delivered == server.delivered && server'.pending == server.pending) ||
            (server'.delivered == server.delivered + 1 && server'.pending == server.pending[server.delivered := c]))
  {
  }

  lemma AccountedByCall(s: State, h: History, c: nat, cl: Client, playbookFound: bool)
    requires InHand(s.server, cl) && s.server.delivered <= |s.server.stream| && Accounted(s) && h == s.history
    ensures
      var (server', h') := Effect(s.server, h, c, cl, playbookFound);
      Accounted(State(server', h', s.clients))
  {
    assert cl.batch != [] ==> cl.batch[0] in cl.batch;
    PendingChange(s.server, h, c, cl, playbookFound);
  }

  /** A call touches only the caller's own pending entries. */
  lemma OthersUntouched(server: Server, h: History, c: nat, cl: Client, playbookFound: bool, d: nat)
    requires InHand(server, cl) && HoldsOne(OwnedBy(server.pending, c), cl) && d != c
    requires server.delivered !in server.pending
    ensures OwnedBy(Effect(server, h, c, cl, playbookFound).0.pending, d) == OwnedBy(server.pending, d)
  {
    var pending' := Effect(server, h, c, cl, playbookFound).0.pending;
    if cl.at.Top? {
    } else if cl.at.ParkAck? || cl.at.Ack? {
      assert cl.batch[0] in OwnedBy(server.pending, c);
    } else {
      assert pending' == server.pending;
    }
  }

  lemma ReaderHoldsOne(cfg: Config, server: Server, h: History, c: nat, cl: Client, playbookFound: bool)
    requires InHand(server, cl) && HoldsOne(OwnedBy(server.pending, c), cl) && cfg.atLeastOnce && cl.at.Top?
    requires forall e :: e in server.pending ==> e < server.delivered
    ensures HoldsOne(OwnedBy(Effect(server, h, c, cl, playbookFound).0.pending, c),
      Advance(cfg, server, c, cl, playbookFound))
  {
    var owned := OwnedBy(server.pending, c);
    if cl.groupReady && cl.drained {
      var more := server.pending[server.delivered := c];
      assert owned == {};
      assert forall e :: e in more && more[e] == c ==> e in owned || e == server.delivered;
      assert OwnedBy(more, c) == {server.delivered};
    } else {
      DrainReadsAll(server, c);
      assert OwnedBy(Effect(server, h, c, cl, playbookFound).0.pending, c) == owned;
    }
  }

  lemma AckerHoldsNone(server: Server, h: History, c: nat, cl: Client, playbookFound: bool)
    requires InHand(server, cl) && HoldsOne(OwnedBy(server.pending, c), cl)
    requires cl.at.ParkAck? || cl.at.Ack?
    ensures OwnedBy(Effect(server, h, c, cl, playbookFound).0.pending, c) == {}
  {
    assert forall e :: e in server.pending && server.pending[e] == c ==> e in OwnedBy(server.pending, c);
  }

  lemma CallerHoldsOne(cfg: Config, server: Server, h: History, c: nat, cl: Client, playbookFound: bool)
    requires InHand(server, cl) && HoldsOne(OwnedBy(server.pending, c), cl) && cfg.atLeastOnce
    requires forall e :: e in server.pending ==> e < server.delivered
    ensures HoldsOne(OwnedBy(Effect(server, h, c, cl, playbookFound).0.pending, c),
      Advance(cfg, server, c, cl, playbookFound))
  {
    if cl.at.Top? {
      ReaderHoldsOne(cfg, server, h, c, cl, playbookFound);
    } else if cl.at.ParkAck? || cl.at.Ack? {
      AckerHoldsNone(server, h, c, cl, playbookFound);
    } else {
      assert Effect(server, h, c, cl, playbookFound).0.pending == server.pending;
      CallerKeepsHolding(cfg, server, c, cl, playbookFound);
    }
  }

  /** Whatever the call did, a thread that starts over still has at most one entry pending. */
  lemma RestartHoldsOne(cfg: Config, server: Server, h: History, c: nat, cl: Client, playbookFound: bool)
    requires InHand(server, cl) && HoldsOne(OwnedBy(server.pending, c), cl) && cfg.atLeastOnce
    ensures HoldsOne(OwnedBy(Effect(server, h, c, cl, playbookFound).0.pending, c), Restarted(cfg))
  {
    var owned' := OwnedBy(Effect(server, h, c, cl, playbookFound).0.pending, c);
    if cl.at.ParkAck? || cl.at.Ack? {
      AckerHoldsNone(server, h, c, cl, playbookFound);
    } else if cl.at.Top? && cl.groupReady && cl.drained {
      assert owned' <= {server.delivered};
    } else {
      assert owned' == OwnedBy(server.pending, c);
    }
  }

  lemma CallerKeepsHolding(cfg: Config, server: Server, c: nat, cl: Client, playbookFound: bool)
    requires InHand(server, cl) && HoldsOne(OwnedBy(server.pending, c), cl) && cfg.atLeastOnce
    requires !cl.at.Top? && !cl.at.ParkAck? && !cl.at.Ack?
    ensures HoldsOne(OwnedBy(server.pending, c), Advance(cfg, server, c, cl, playbookFound))
  {
  }

  lemma PendingKeptByStep(cfg: Config, s: State, step: Step)
    requires Shaped(cfg, s) && PendingKept(cfg, s)
    ensures PendingKept(cfg, Next(cfg, s, step))
  {
    var s' := Next(cfg, s, step);
    if step.Act? {
      var c := step.consumer;
      var cl := ClientOf(cfg, s, c);
      AccountedByCall(s, s.history, c, cl, step.playbookFound);
      if cfg.atLeastOnce {
        forall d: nat ensures HoldsOne(OwnedBy(s'.server.pending, d), ClientOf(cfg, s', d)) {
          assert HoldsOne(OwnedBy(s.server.pending, d), ClientOf(cfg, s, d));
          assert HoldsOne(OwnedBy(s.server.pending, c), cl);
          if d == c {
            CallerHoldsOne(cfg, s.server, s.history, c, cl, step.playbookFound);
            RestartHoldsOne(cfg, s.server, s.history, c, cl, step.playbookFound);
          } else {
            OthersUntouched(s.server, s.history, c, cl, step.playbookFound, d);
          }
        }
      }
    }
  }

  // ---------------------------------------------------------------- no ack before an outcome

  ghost predicate Announced(h: History, o: Occurrence) {
    exists a :: a in h.outcomes && a.occurrence == o
  }

  /** Two stream entries carry the same message. */
  predicate Copies(stream: seq<Entry>, e: nat, f: nat) {
    e == f || (e < |stream| && f < |stream| && stream[e].eventId.Some? && stream[e].eventId == stream[f].eventId)
  }

  /** The handler ran to its end for this entry, or for another copy of the same message. */
  ghost predicate Completed(stream: seq<Entry>, h: History, e: nat) {
    exists f :: f in h.finished && Copies(stream, f, e)
  }

  ghost predicate Settled(stream: seq<Entry>, h: History, e: nat) {
    e in h.parked || Completed(stream, h, e)
  }

  /** What a thread may rely on having been done, by its position. */
  ghost predicate Truthful(stream: seq<Entry>, h: History, cl: Client) {
    cl.batch != [] && cl.batch[0] < |stream| ==>
      var e := cl.batch[0];
      && (cl.at.MarkExecDone? || cl.at.Resume? ==> stream[e].body.Some? && Announced(h, stream[e].body.value))
      && (cl.at.MarkEventDone? ==> e in h.finished)
      && (cl.at.Ack? || cl.at.ParkAck? || cl.at.ParkForget? || cl.at.Forget? ==> Settled(stream, h, e))
  }

  ghost predicate OutcomesKept(cfg: Config, s: State) {
    var stream, h := s.server.stream, s.history;
    && (forall i, j :: 0 <= i < |stream| && 0 <= j < |stream| && Copies(stream, i, j) ==>
      stream[i].body == stream[j].body)
    && (forall o :: IsDone(s.server, ExecKey(o)) ==> Announced(h, o))
    && (forall id :: IsDone(s.server, EventKey(id)) ==>
          exists f :: f in h.finished && f < |stream| && stream[f].eventId == Some(id))
    && (forall f :: f in h.finished ==> f < |stream| && stream[f].body.Some? && Announced(h, stream[f].body.value))
    && (cfg.atLeastOnce ==> forall e :: e in h.acked ==> Settled(stream, h, e))
    && (forall c: nat :: Truthful(stream, h, ClientOf(cfg, s, c)))
  }

  /** Later states remember everything. */
  ghost predicate Remembers(h: History, h': History) {
    h.acked <= h'.acked && h.parked <= h'.parked && h.finished <= h'.finished &&
    (forall a :: a in h.outcomes ==> a in h'.outcomes)
  }

  lemma EffectRemembers(server: Server, h: History, c: nat, cl: Client, playbookFound: bool)
    requires InHand(server, cl)
    ensures Remembers(h, Effect(server, h, c, cl, playbookFound).1)
  {
  }

  lemma TruthLasts(stream: seq<Entry>, h: History, stream': seq<Entry>, h': History, cl: Client)
    requires stream <= stream' && Remembers(h, h')
    requires cl.batch != [] ==> cl.batch[0] < |stream|
    requires Truthful(stream, h, cl)
    ensures Truthful(stream', h', cl)
  {
    if cl.batch != [] {
      var e := cl.batch[0];
      if Settled(stream, h, e) {
        SettledLasts(stream, h, stream', h', e);
      }
      if stream[e].body.Some? && Announced(h, stream[e].body.value) {
        var a :| a in h.outcomes && a.occurrence == stream[e].body.value;
        assert a in h'.outcomes;
      }
    }
  }

  lemma SettledLasts(stream: seq<Entry>, h: History, stream': seq<Entry>, h': History, e: nat)
    requires stream <= stream' && Remembers(h, h') && Settled(stream, h, e)
    ensures Settled(stream', h', e)
  {
    if e !in h.parked {
      var f :| f in h.finished && Copies(stream, f, e);
      assert f in h'.finished && Copies(stream', f, e);
    }
  }

  /** How a thread reaches the positions that claim something has been done. */
  predicate ComesFrom(server: Server, cl: Client, at': At)
    requires InHand(server, cl)
  {
    && (at'.MarkExecDone? ==> cl.at.PublishOutcome?)
    && (at'.Resume? ==> cl.at.MarkExecDone? || (cl.at.ReadExec? && IsDone(server, ExecKeyOf(server, cl))))
    && (at'.MarkEventDone? ==> cl.at.Resume?)
    && (at'.Ack? ==>
          cl.at.Resume? || cl.at.MarkEventDone? || cl.at.ParkUndecodable? ||
          (cl.at.ReadEvent? && IsDone(server, EventKeyOf(server, cl))))
    && (at'.ParkAck? ==> cl.at.Park?)
    && (at'.ParkForget? ==> cl.at.ParkAck?)
    && (at'.Forget? ==> cl.at.Ack?)
  }

  lemma MoveComesFrom(cfg: Config, server: Server, cl: Client, playbookFound: bool)
    requires InHand(server, cl) && !cl.at.Top?
    ensures
      var move := MoveOf(cfg, server, cl, playbookFound);
      move.Goto? ==> ComesFrom(server, cl, move.at)
  {
  }

  /** What the calls that do something lasting leave behind. */
  ghost predicate Records(server: Server, cl: Client, h: History, h': History)
    requires InHand(server, cl)
  {
    && Remembers(h, h')
    && (cl.at.PublishOutcome? ==> Announced(h', OccurrenceOf(server, cl)))
    && (cl.at.Resume? ==> cl.batch[0] in h'.finished)
    && (cl.at.Park? || cl.at.ParkUndecodable? ==> cl.batch[0] in h'.parked)
  }

  lemma EffectRecords(server: Server, h: History, c: nat, cl: Client, playbookFound: bool)
    requires InHand(server, cl)
    ensures Records(server, cl, h, Effect(server, h, c, cl, playbookFound).1)
  {
    if cl.at.PublishOutcome? {
      var a := Announcement(OccurrenceOf(server, cl), cl.at.kind);
      assert a in Effect(server, h, c, cl, playbookFound).1.outcomes && a.occurrence == OccurrenceOf(server, cl);
    }
  }

  /** The calling thread's own position stays truthful. */
  lemma CallerTruthful(cfg: Config, s: State, c: nat, cl': Client, h': History)
    requires Shaped(cfg, s) && OutcomesKept(cfg, s)
    requires InHand(s.server, ClientOf(cfg, s, c))
    requires cl'.batch == ClientOf(cfg, s, c).batch && ComesFrom(s.server, ClientOf(cfg, s, c), cl'.at)
    requires Records(s.server, ClientOf(cfg, s, c), s.history, h')
    ensures Truthful(s.server.stream, h', cl')
  {
    var cl := ClientOf(cfg, s, c);
    var stream := s.server.stream;
    assert Truthful(stream, s.history, cl);
    if cl.batch != [] {
      TruthLasts(stream, s.history, stream, h', cl);
      assert Copies(stream, cl.batch[0], cl.batch[0]);
      if cl.at.ReadEvent? && IsDone(s.server, EventKeyOf(s.server, cl)) {
        var f :| f in s.history.finished && f < |stream| && stream[f].eventId == Some(EventKeyOf(s.server, cl).eventId);
        assert f in h'.finished && Copies(stream, f, cl.batch[0]);
      } else if cl.at.ReadExec? && IsDone(s.server, ExecKeyOf(s.server, cl)) {
        var o := OccurrenceOf(s.server, cl);
        var a :| a in s.history.outcomes && a.occurrence == o;
        assert a in h'.outcomes;
      }
    }
  }

  /** The guard says "done" only for what was announced, and the event guard only for what was finished. */
  lemma DoneKept(cfg: Config, s: State, c: nat, playbookFound: bool)
    requires Shaped(cfg, s) && OutcomesKept(cfg, s)
    requires InHand(s.server, ClientOf(cfg, s, c))
    ensures
      var (server', h') := Effect(s.server, s.history, c, ClientOf(cfg, s, c), playbookFound);
      && (forall o :: IsDone(server', ExecKey(o)) ==> IsDone(s.server, ExecKey(o)) || Announced(s.history, o))
      && (forall id :: IsDone(server', EventKey(id)) && !IsDone(s.server, EventKey(id)) ==>
            exists f :: f in s.history.finished && f < |s.server.stream| && s.server.stream[f].eventId == Some(id))
  {
    var cl := ClientOf(cfg, s, c);
    assert Truthful(s.server.stream, s.history, cl);
  }

  /** What a call adds to the finished and the acked entries was due. */
  lemma AdditionsDue(cfg: Config, s: State, c: nat, playbookFound: bool)
    requires Shaped(cfg, s) && OutcomesKept(cfg, s)
    requires InHand(s.server, ClientOf(cfg, s, c))
    ensures
      var h' := Effect(s.server, s.history, c, ClientOf(cfg, s, c), playbookFound).1;
      && (forall f :: f in h'.finished && f !in s.history.finished ==>
            f < |s.server.stream| && s.server.stream[f].body.Some? &&
              Announced(s.history, s.server.stream[f].body.value))
      && (cfg.atLeastOnce && !ClientOf(cfg, s, c).at.AckFirst? ==>
        forall e :: e in h'.acked && e !in s.history.acked ==>
            Settled(s.server.stream, s.history, e))
  {
    var cl := ClientOf(cfg, s, c);
    assert Truthful(s.server.stream, s.history, cl);
  }

  lemma OutcomesKeptByCall(cfg: Config, s: State, step: Step)
    requires Shaped(cfg, s) && PendingKept(cfg, s) && OutcomesKept(cfg, s) && step.Act?
    ensures OutcomesKept(cfg, Next(cfg, s, step))
  {
    var c, pb := step.consumer, step.playbookFound;
    var cl := ClientOf(cfg, s, c);
    var s' := Next(cfg, s, step);
    var stream := s.server.stream;
    assert InHand(s.server, cl);
    assert cfg.atLeastOnce ==> HoldsOne(OwnedBy(s.server.pending, c), cl);
    EffectRemembers(s.server, s.history, c, cl, pb);
    EffectGrows(s.server, s.history, c, cl, pb);
    DoneKept(cfg, s, c, pb);
    AdditionsDue(cfg, s, c, pb);
    var h, h' := s.history, s'.history;
    assert s'.server.stream == stream && Remembers(h, h');
    forall o | Announced(h, o) ensures Announced(h', o) {
      var a :| a in h.outcomes && a.occurrence == o;
      assert a in h'.outcomes;
    }
    forall e | Settled(stream, h, e) ensures Settled(stream, h', e) {
      SettledLasts(stream, h, stream, h', e);
    }
    forall d: nat ensures Truthful(stream, h', ClientOf(cfg, s', d)) {
      assert Truthful(stream, h, ClientOf(cfg, s, d)) && InHand(s.server, ClientOf(cfg, s, d));
      if d != c {
        TruthLasts(stream, h, stream, h', ClientOf(cfg, s, d));
      } else if step.fault.Fine? {
        AdvanceTruthful(cfg, s, c, pb);
      }
    }
  }

  /** The caller's new position is truthful. */
  lemma AdvanceTruthful(cfg: Config, s: State, c: nat, playbookFound: bool)
    requires Shaped(cfg, s) && OutcomesKept(cfg, s)
    requires InHand(s.server, ClientOf(cfg, s, c))
    ensures
      var cl := ClientOf(cfg, s, c);
      Truthful(s.server.stream, Effect(s.server, s.history, c, cl, playbookFound).1,
        Advance(cfg, s.server, c, cl, playbookFound))
  {
    var cl := ClientOf(cfg, s, c);
    if !cl.at.Top? && MoveOf(cfg, s.server, cl, playbookFound).Goto? {
      EffectRecords(s.server, s.history, c, cl, playbookFound);
      MoveComesFrom(cfg, s.server, cl, playbookFound);
      CallerTruthful(cfg, s, c, cl.(at := MoveOf(cfg, s.server, cl, playbookFound).at),
        Effect(s.server, s.history, c, cl, playbookFound).1);
    }
  }

  lemma OutcomesKeptByProduce(cfg: Config, s: State, entry: Entry)
    requires Shaped(cfg, s) && OutcomesKept(cfg, s) && MayProduce(s.server.stream, entry)
    ensures OutcomesKept(cfg, Next(cfg, s, Produce(entry)))
  {
    var s' := Next(cfg, s, Produce(entry));
    var stream, stream' := s.server.stream, s'.server.stream;
    forall e | Settled(stream, s.history, e) ensures Settled(stream', s.history, e) {
      SettledLasts(stream, s.history, stream', s.history, e);
    }
    forall c: nat ensures Truthful(stream', s.history, ClientOf(cfg, s', c)) {
      assert Truthful(stream, s.history, ClientOf(cfg, s, c)) && InHand(s.server, ClientOf(cfg, s, c));
      TruthLasts(stream, s.history, stream', s.history, ClientOf(cfg, s, c));
    }
    forall id | IsDone(s.server, EventKey(id))
      ensures exists f :: f in s.history.finished && f < |stream'| && stream'[f].eventId == Some(id)
    {
      var f :| f in s.history.finished && f < |stream| && stream[f].eventId == Some(id);
      assert stream'[f] == stream[f];
    }
  }
}
