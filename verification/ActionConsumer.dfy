/**
 The action service's consumer thread, written as the program writes it: the read loop of `consume`, in
 it the body of `iter_models`, in it the body of `run_consumer`. Being resumed is returning true; a lost
 call, an exception or a stop returns false all the way up, and the thread starts over.

 The deployment it works on is at every point in the state that the delivery machine reaches by the steps
 laid down for the calls made, so whatever DeliveryTheorems proves of all runs holds of this code,
 whatever the other threads do meanwhile. A method goes on exactly as long as its calls go through.
*/
module ActionConsumers {
  import opened Prelude
  import opened Delivery
  import opened DeliverySafety
  import opened Deployments
  import opened DeliveryTheorems

  /** An occurrence marked as handled has its outcome out. */
  lemma DoneIsAnnounced(plan: Plan, n: nat, s: State, o: Occurrence)
    requires StandsAt(plan, n, s) && IsDone(s.server, ExecKey(o))
    ensures Announced(s.history, o)
  {
    RunIsSound(plan.cfg, Schedule(plan, n));
  }

  /** A message marked as done was handled to the end, in this copy or in another. */
  lemma DoneIsCompleted(plan: Plan, n: nat, s: State, e: nat)
    requires StandsAt(plan, n, s) && e < |s.server.stream| && s.server.stream[e].eventId.Some?
    requires IsDone(s.server, EventKey(s.server.stream[e].eventId.value))
    ensures Completed(s.server.stream, s.history, e)
  {
    RunIsSound(plan.cfg, Schedule(plan, n));
    var f :| f in s.history.finished && f < |s.server.stream| &&
      s.server.stream[f].eventId == s.server.stream[e].eventId;
    assert Copies(s.server.stream, f, e);
  }

  lemma HeldIsOnStream(plan: Plan, n: nat, s: State)
    requires StandsAt(plan, n, s) && ClientOf(plan.cfg, s, plan.name).batch != []
    ensures ClientOf(plan.cfg, s, plan.name).batch[0] < |s.server.stream|
  {
    var cl := ClientOf(plan.cfg, s, plan.name);
    assert s == Run(plan.cfg, Schedule(plan, n)) && InHand(s.server, cl);
    assert cl.batch[0] in cl.batch;
  }

  /** What a consumer has pending it keeps pending until it is acked. */
  lemma {:induction false} PendingFollows(cfg: Config, earlier: seq<Step>, later: seq<Step>, c: nat)
    requires earlier <= later
    ensures
      var s, s' := Run(cfg, earlier), Run(cfg, later);
      forall e :: e in OwnedBy(s.server.pending, c) ==> e in OwnedBy(s'.server.pending, c) || e in s'.history.acked
    decreases |later|
  {
    if earlier == later {
    } else {
      var front, step := later[..|later| - 1], later[|later| - 1];
      PendingFollows(cfg, earlier, front, c);
      RunIsSound(cfg, front);
      assert step.Act? ==> InHand(Run(cfg, front).server, ClientOf(cfg, Run(cfg, front), step.consumer));
      PendingFollowsStep(cfg, Run(cfg, front), step, c);
    }
  }

  lemma PendingFollowsStep(cfg: Config, s: State, step: Step, c: nat)
    requires Accounted(s) && (step.Act? ==> InHand(s.server, ClientOf(cfg, s, step.consumer)))
    ensures
      var s' := Next(cfg, s, step);
      && s.history.acked <= s'.history.acked
      && forall e :: e in OwnedBy(s.server.pending, c) ==> e in OwnedBy(s'.server.pending, c) || e in s'.history.acked
  {
    if step.Act? {
      PendingChange(s.server, s.history, step.consumer, ClientOf(cfg, s, step.consumer), step.playbookFound);
    }
  }

  class ActionConsumer {
    const world: Deployment
    var groupReady: bool
    var drained: bool

    /** Between two entries the thread is where its two locals say. */
    ghost predicate Valid()
      reads this, world
    {
      world.Valid() && world.Thread() == Client(Top, groupReady, drained, [])
    }

    constructor (world: Deployment)
      requires world.Valid() && world.Thread() == Restarted(world.cfg)
      ensures Valid() && this.world == world
    {
      this.world := world;
      groupReady, drained := false, !world.cfg.atLeastOnce;
    }

    /** The thread has `e` in hand. */
    ghost predicate InHandIs(e: nat)
      reads this, world
    {
      world.Valid() && world.Thread().batch != [] && world.Thread().batch[0] == e
    }

    /** The thread has `e` in hand, and these are the entry's fields. */
    ghost predicate Holds(e: nat, fields: Entry)
      reads this, world
    {
      InHandIs(e) && e < |world.server.stream| && world.server.stream[e] == fields
    }

    /** Calls were made, and all but perhaps the last went through. */
    twostate predicate CallsMade()
      reads this, world
    {
      && world.Valid() && world.Later()
      && old(world.calls) < world.calls && world.AllFine(old(world.calls), world.calls - 1)
    }

    /** Calls were made, none of them to hand out an entry, and the thread is alive if and only if all went through. */
    twostate predicate Went(alive: bool)
      reads this, world
    {
      CallsMade() && (alive <==> world.Fine(world.calls - 1)) && world.handouts == old(world.handouts)
    }

    // -------------------------------------------------------------- run_consumer

    /** Publish the outcome, then mark the occurrence as handled. */
    method Conclude(e: nat, fields: Entry, kind: OutcomeKind) returns (alive: bool)
      requires Holds(e, fields) && fields.body.Some? && world.Thread().at == PublishOutcome(kind)
      modifies world
      ensures Went(alive) && world.executions == old(world.executions)
      ensures world.Thread() == if alive then old(world.Thread()).(at := Resume) else Restarted(world.cfg)
      ensures world.calls <= old(world.calls) + 2
      ensures world.Reached(old(world.calls)) ==> Announcement(fields.body.value, kind) in world.history.outcomes
      ensures alive ==> world.calls == old(world.calls) + 2 && IsDone(world.server, ExecKey(fields.body.value))
    {
      alive := world.Publish(e, fields.body.value, kind);
      if alive {
        label Published:
        alive := world.SetState(e, ExecKey(fields.body.value), Done);
        world.Grows@Published();
      }
    }

    /**
     The claim is taken. An earlier attempt that died half way is reported as interrupted; what it did is
     never guessed, and nothing is executed again.
     */
    method HandleAgain(e: nat, fields: Entry) returns (alive: bool)
      requires Holds(e, fields) && fields.body.Some? && world.Thread().at.ReadExec?
      modifies world
      ensures Went(alive) && world.executions == old(world.executions)
      ensures world.Thread() == if alive then old(world.Thread()).(at := Resume) else Restarted(world.cfg)
      ensures world.calls > old(world.calls) + 1 && world.Reached(old(world.calls) + 1) ==>
        Announcement(fields.body.value, Interrupted) in world.history.outcomes
      ensures alive ==> IsDone(world.server, ExecKey(fields.body.value))
      ensures alive ==> world.calls == old(world.calls) + 1 || world.calls == old(world.calls) + 3
    {
      var ok, mark := world.StateOf(e, ExecKey(fields.body.value));
      if !ok || mark == Some(Done) {
        return ok;
      }
      alive := Conclude(e, fields, Interrupted);
    }

    /**
     The claim is won: mark it as running, remediate or escalate when there is no playbook, announce the
     outcome, mark it as done. Each follows only if the ones before went through.
     */
    method HandleFirst(e: nat, fields: Entry) returns (alive: bool)
      requires Holds(e, fields) && fields.body.Some? && world.Thread().at.MarkRunning?
      modifies world
      ensures Went(alive) && world.calls <= old(world.calls) + 4 && (alive ==> world.calls == old(world.calls) + 4)
      ensures world.Thread() == if alive then old(world.Thread()).(at := Resume) else Restarted(world.cfg)
      ensures world.calls == old(world.calls) + 1 ==> world.executions == old(world.executions)
      ensures world.Reached(old(world.calls)) ==>
        PastClaim(fields.body.value) && (world.calls == old(world.calls) + 1 ==> IsRunning(fields.body.value))
      ensures world.calls > old(world.calls) + 1 ==> Executed(old(world.calls) + 1, fields.body.value)
      ensures world.calls > old(world.calls) + 2 ==> Reported(old(world.calls) + 1, fields.body.value)
      ensures alive ==> IsDone(world.server, ExecKey(fields.body.value))
    {
      alive := world.SetState(e, ExecKey(fields.body.value), InProgress);
      if alive {
        label Marked:
        alive := RemediateAndConclude(e, fields);
        world.Grows@Marked();
      }
    }

    predicate IsRunning(o: Occurrence)
      reads this, world
    {
      ExecKey(o) in world.server.marks && world.server.marks[ExecKey(o)] == InProgress
    }

    /** The claim of `o` has been marked as running or done, and so its execution is never begun again. */
    predicate PastClaim(o: Occurrence)
      reads this, world
    {
      ExecKey(o) in world.server.marks && world.server.marks[ExecKey(o)] != Claimed
    }

    /** Call `k` has executed the playbook found for `o`, if there was one and the call reached the cluster. */
    twostate predicate Executed(k: nat, o: Occurrence)
      reads this, world
    {
      world.executions ==
        old(world.executions) + if world.Reached(k) && world.plan.fate(k).playbookFound then [o] else []
    }

    /** The call after call `k`, once it has reached the bus, has announced what call `k` did about `o`. */
    predicate Reported(k: nat, o: Occurrence)
      reads this, world
    {
      world.Reached(k + 1) ==>
        Announcement(o, if world.plan.fate(k).playbookFound then Ran else Escalated) in world.history.outcomes
    }

    method RemediateAndConclude(e: nat, fields: Entry) returns (alive: bool)
      requires Holds(e, fields) && fields.body.Some? && world.Thread().at.Remediate?
      modifies world
      ensures Went(alive) && world.calls <= old(world.calls) + 3 && (alive ==> world.calls == old(world.calls) + 3)
      ensures world.Thread() == if alive then old(world.Thread()).(at := Resume) else Restarted(world.cfg)
      ensures Executed(old(world.calls), fields.body.value)
      ensures world.calls > old(world.calls) + 1 ==> Reported(old(world.calls), fields.body.value)
      ensures alive ==> IsDone(world.server, ExecKey(fields.body.value))
    {
      var playbookFound;
      alive, playbookFound := world.Remediate(e, fields.body.value);
      if alive {
        alive := Conclude(e, fields, if playbookFound then Ran else Escalated);
      }
    }

    /** What is executed at most: this occurrence, once, and only if its claim was still free. */
    twostate predicate ExecutesOnce(o: Occurrence)
      reads this, world
    {
      && (world.executions == old(world.executions) || world.executions == old(world.executions) + [o])
      && (ExecKey(o) in old(world.server.marks) ==> world.executions == old(world.executions))
    }

    /** What to do by how the claim went. */
    method HandleEither(e: nat, fields: Entry, won: bool) returns (alive: bool)
      requires Holds(e, fields) && fields.body.Some? && world.Thread().at == if won then MarkRunning else ReadExec
      modifies world
      ensures Went(alive)
      ensures world.executions == old(world.executions) ||
        (won && world.executions == old(world.executions) + [fields.body.value])
      ensures world.Thread() == if alive then old(world.Thread()).(at := Resume) else Restarted(world.cfg)
      ensures alive ==> IsDone(world.server, ExecKey(fields.body.value)) && Announced(world.history, fields.body.value)
    {
      if won {
        alive := HandleFirst(e, fields);
      } else {
        alive := HandleAgain(e, fields);
      }
      if alive {
        DoneIsAnnounced(world.plan, world.calls, world.View(), fields.body.value);
      }
    }

    /** One diagnosis, under the two-phase execution claim. */
    method Handle(e: nat, fields: Entry) returns (alive: bool)
      requires Holds(e, fields) && fields.body.Some? && world.Thread().at.ClaimExec?
      modifies world
      ensures Went(alive) && ExecutesOnce(fields.body.value)
      ensures world.Thread() == if alive then old(world.Thread()).(at := Resume) else Restarted(world.cfg)
      ensures alive ==> IsDone(world.server, ExecKey(fields.body.value)) && Announced(world.history, fields.body.value)
    {
      var won;
      alive, won := world.ClaimKey(e, ExecKey(fields.body.value));
      world.Grows();
      if alive {
        alive := HandleEither(e, fields, won);
      }
    }

    // -------------------------------------------------------------- iter_models

    /** Claim the message; it is skipped if and only if an earlier attempt finished it. */
    method ClaimMessage(e: nat, fields: Entry) returns (alive: bool, skip: bool)
      requires Holds(e, fields) && fields.eventId.Some? && world.Thread().at.ClaimEvent?
      modifies world
      ensures Went(alive) && world.executions == old(world.executions)
      ensures world.Thread() ==
        if !alive then Restarted(world.cfg)
        else if skip then Resumed(world.cfg, old(world.Thread()))
        else old(world.Thread()).(at := ClaimExec)
      ensures alive ==> (skip <==> IsDone(world.server, EventKey(fields.eventId.value)))
    {
      var won;
      skip := false;
      alive, won := world.ClaimKey(e, EventKey(fields.eventId.value));
      if alive && !won {
        var mark;
        alive, mark := world.StateOf(e, EventKey(fields.eventId.value));
        skip := mark == Some(Done);
      }
    }

    /** The handler returns, and only now is the message done. */
    method MarkFinished(e: nat, fields: Entry) returns (alive: bool)
      requires Holds(e, fields) && world.Thread().at.Resume?
      modifies world
      ensures Went(alive) && world.executions == old(world.executions)
      ensures world.Thread() == if alive then Resumed(world.cfg, old(world.Thread())) else Restarted(world.cfg)
      ensures alive || world.Reached(old(world.calls)) ==> e in world.history.finished
      ensures alive && fields.eventId.Some? ==> IsDone(world.server, EventKey(fields.eventId.value))
    {
      alive := world.HandlerReturns(e, fields);
      if alive && fields.eventId.Some? {
        label Returned:
        alive := world.SetState(e, EventKey(fields.eventId.value), Done);
        world.Grows@Returned();
      }
    }

    /** A decoded message: claim it, have it handled, mark it done. */
    method Process(e: nat, fields: Entry) returns (alive: bool)
      requires Holds(e, fields) && fields.body.Some?
      requires world.Thread().at == if fields.eventId.Some? then ClaimEvent else ClaimExec
      modifies world
      ensures Went(alive) && ExecutesOnce(fields.body.value)
      ensures world.Thread() == if alive then Resumed(world.cfg, old(world.Thread())) else Restarted(world.cfg)
      ensures alive ==> Completed(world.server.stream, world.history, e)
      ensures alive && fields.eventId.Some? ==> IsDone(world.server, EventKey(fields.eventId.value))
    {
      if fields.eventId.Some? {
        var skip;
        alive, skip := ClaimMessage(e, fields);
        if skip && alive {
          DoneIsCompleted(world.plan, world.calls, world.View(), e);
        }
        if !alive || skip {
          return;
        }
        world.Grows();
      }
      alive := HandleAndMark(e, fields);
    }

    method HandleAndMark(e: nat, fields: Entry) returns (alive: bool)
      requires Holds(e, fields) && fields.body.Some? && world.Thread().at.ClaimExec?
      modifies world
      ensures Went(alive) && ExecutesOnce(fields.body.value)
      ensures world.Thread() == if alive then Resumed(world.cfg, old(world.Thread())) else Restarted(world.cfg)
      ensures alive ==> Completed(world.server.stream, world.history, e)
      ensures alive && fields.eventId.Some? ==> IsDone(world.server, EventKey(fields.eventId.value))
    {
      alive := Handle(e, fields);
      if alive {
        alive := MarkFinished(e, fields);
        assert alive ==> Copies(world.server.stream, e, e);
      }
    }

    /** With the DLQ off, an entry that does not decode. */
    predicate Poison(e: nat)
      reads this, world
    {
      !world.cfg.dlqOn && e < |world.server.stream| && world.server.stream[e].body.None?
    }

    /** Acked, and first parked or handled to the end. */
    ghost predicate DealtWith(e: nat)
      reads this, world
    {
      e < |world.server.stream| && e in world.history.acked && Settled(world.server.stream, world.history, e)
    }

    twostate lemma StaysDealtWith(e: nat)
      requires old(world.Valid()) && world.Valid() && world.Later() && old(DealtWith(e))
      ensures DealtWith(e)
    {
      world.Grows();
      SettledLasts(old(world.server.stream), old(world.history), world.server.stream, world.history, e);
    }

    /** Decode the entry handed out, or park it; with the DLQ off the decode error goes on up. */
    method Receive(e: nat) returns (alive: bool)
      requires InHandIs(e) && world.Thread().at.Yield?
      modifies world
      ensures world.handouts == old(world.handouts) + if world.Reached(old(world.calls)) then [e] else []
      ensures CallsMade() && (alive <==> world.Fine(world.calls - 1) && !Poison(e))
      ensures world.Thread() == if alive then Resumed(world.cfg, old(world.Thread())) else Restarted(world.cfg)
      ensures alive ==> e < |world.server.stream| && Settled(world.server.stream, world.history, e)
    {
      var ok, fields := world.HandOut(e);
      if !ok || (fields.body.None? && !world.cfg.dlqOn) {
        return false;
      }
      alive := ProcessOrPark(e, fields);
    }

    method ProcessOrPark(e: nat, fields: Entry) returns (alive: bool)
      requires Holds(e, fields) && (world.cfg.dlqOn || fields.body.Some?)
      requires world.Thread().at ==
        if fields.body.None? then ParkUndecodable else if fields.eventId.Some? then ClaimEvent else ClaimExec
      modifies world
      ensures Went(alive)
      ensures world.Thread() == if alive then Resumed(world.cfg, old(world.Thread())) else Restarted(world.cfg)
      ensures alive ==> Settled(world.server.stream, world.history, e)
    {
      if fields.body.None? {
        alive := world.SendToDlq(e);
      } else {
        alive := Process(e, fields);
      }
    }

    // -------------------------------------------------------------- consume

    /** Count this delivery; the answer says whether it is one too many, going by the counter it came upon. */
    method CountDelivery(e: nat) returns (alive: bool, tooMany: bool)
      requires InHandIs(e) && world.Thread().at.CountAttempt?
      modifies world
      ensures Went(alive) && world.executions == old(world.executions)
      ensures tooMany <==> TriedTooOften(world.plan, old(world.calls), e)
      ensures world.calls <= old(world.calls) + 2 && (alive ==> world.calls == old(world.calls) + 2)
      ensures world.Thread() ==
        if alive then old(world.Thread()).(at := if tooMany then Park else Yield) else Restarted(world.cfg)
    {
      var attempts;
      alive, attempts := world.Increment(e);
      tooMany := attempts > world.cfg.maxAttempts;
      TriedTooOftenIff(world.plan, old(world.calls), world.met, e);
      if alive {
        alive := world.ExpireCounter();
      }
    }

    /** Resumed: the handler is done with the entry. */
    method AckAndForget(e: nat) returns (alive: bool)
      requires InHandIs(e) && world.Thread().at.Ack?
      modifies world
      ensures Went(alive) && world.executions == old(world.executions)
      ensures world.Thread() == if alive then NextEntry(world.cfg, old(world.Thread())) else Restarted(world.cfg)
      ensures alive || world.Reached(old(world.calls)) ==> e in world.history.acked
    {
      alive := world.AckEntry(e);
      if alive && world.cfg.dlqOn {
        label Acked:
        alive := world.DeleteCounter(e);
        world.Grows@Acked();
      }
    }

    /** One entry of a batch: acked first, or acked when the generator is resumed. */
    method Deliver(e: nat) returns (alive: bool)
      requires InHandIs(e) && world.Thread() == TakeUp(world.cfg, world.Thread())
      modifies world
      ensures CallsMade() && (alive <==> world.Fine(world.calls - 1) && !Poison(e))
      ensures world.Thread() == if alive then NextEntry(world.cfg, old(world.Thread())) else Restarted(world.cfg)
      ensures alive ==> DealtWith(e)
    {
      if world.cfg.atLeastOnce {
        alive := DeliverThenAck(e);
      } else {
        alive := world.AckEntry(e);
        if alive {
          label Acked:
          alive := Receive(e);
          world.Grows@Acked();
        }
      }
    }

    /** With the DLQ on, an entry whose deliveries, this one counted, are more than allowed. */
    ghost predicate TooMany(k: nat, e: nat) {
      world.cfg.dlqOn && TriedTooOften(world.plan, k, e)
    }

    /** Call `k`, if it was made and arrived, has handed out `e`; nothing else was handed out. */
    twostate predicate HandedOutBy(k: nat, e: nat)
      reads this, world
    {
      world.handouts == old(world.handouts) + if k < world.calls && world.Reached(k) then [e] else []
    }

    method DeliverThenAck(e: nat) returns (alive: bool)
      requires InHandIs(e) && world.cfg.atLeastOnce &&
        world.Thread().at == if world.cfg.dlqOn then CountAttempt else Yield
      modifies world
      ensures if TooMany(old(world.calls), e)
        then world.handouts == old(world.handouts) && world.executions == old(world.executions)
        else HandedOutBy(old(world.calls) + (if world.cfg.dlqOn then 2 else 0), e)
      ensures alive && TooMany(old(world.calls), e) ==> e in world.history.parked
      ensures CallsMade() && (alive <==> world.Fine(world.calls - 1) && !Poison(e))
      ensures world.Thread() == if alive then NextEntry(world.cfg, old(world.Thread())) else Restarted(world.cfg)
      ensures alive ==> DealtWith(e)
    {
      if world.cfg.dlqOn {
        var tooMany;
        alive, tooMany := CountDelivery(e);
        if !alive {
          return;
        }
        if tooMany {
          alive := ParkAndForget(e);
          return;
        }
      }
      alive := ReceiveThenAck(e);
    }

    method ReceiveThenAck(e: nat) returns (alive: bool)
      requires InHandIs(e) && world.cfg.atLeastOnce && world.Thread().at.Yield?
      modifies world
      ensures HandedOutBy(old(world.calls), e)
      ensures CallsMade() && (alive <==> world.Fine(world.calls - 1) && !Poison(e))
      ensures world.Thread() == if alive then NextEntry(world.cfg, old(world.Thread())) else Restarted(world.cfg)
      ensures alive ==> DealtWith(e)
    {
      alive := Receive(e);
      if alive {
        label Received:
        ghost var stream, history := world.server.stream, world.history;
        alive := AckAndForget(e);
        world.Grows@Received();
        SettledLasts(stream, history, world.server.stream, world.history, e);
      }
    }

    /** Too many attempts: park the entry, ack it, drop its counter. */
    method ParkAndForget(e: nat) returns (alive: bool)
      requires InHandIs(e) && world.Thread().at.Park?
      modifies world
      ensures Went(alive) && world.executions == old(world.executions)
      ensures world.Thread() == if alive then NextEntry(world.cfg, old(world.Thread())) else Restarted(world.cfg)
      ensures alive || world.Reached(old(world.calls)) ==> e in world.history.parked
      ensures alive ==> DealtWith(e)
    {
      HeldIsOnStream(world.plan, world.calls, world.View());
      alive := world.SendToDlq(e);
      if alive {
        label Parked:
        alive := AckParked(e);
        world.Grows@Parked();
      }
    }

    method AckParked(e: nat) returns (alive: bool)
      requires InHandIs(e) && world.Thread().at.ParkAck?
      modifies world
      ensures Went(alive) && world.executions == old(world.executions)
      ensures world.Thread() == if alive then NextEntry(world.cfg, old(world.Thread())) else Restarted(world.cfg)
      ensures alive || world.Reached(old(world.calls)) ==> e in world.history.acked
    {
      alive := world.AckEntry(e);
      if alive {
        label Acked:
        alive := world.DeleteCounter(e);
        world.Grows@Acked();
      }
    }

    /** Back to the top of `consume`: re-ensure the group, and drain what is pending again. */
    method StartOver()
      requires world.Valid() && world.Thread() == Restarted(world.cfg)
      modifies this
      ensures Valid() && groupReady == false && drained == !world.cfg.atLeastOnce
    {
      groupReady := false;
      drained := !world.cfg.atLeastOnce;
    }

    /** Read what this consumer has pending, once, and then one new entry at a time. */
    method ReadBatch() returns (ok: bool, entries: seq<nat>)
      requires Valid() && groupReady
      modifies this, world
      ensures Went(ok) && groupReady
      ensures if ok then drained && world.Thread() == TakeUp(world.cfg, Client(Top, true, true, entries))
        else world.Thread() == Restarted(world.cfg)
      ensures ok && !old(drained) ==>
        entries == FirstBatch(PendingOf(world.server.pending, world.name, world.server.delivered))
      ensures ok && old(drained) ==>
        if entries == [] then world.server.delivered >= |world.server.stream|
        else entries == [world.server.delivered - 1] && entries[0] in OwnedBy(world.server.pending, world.name)
    {
      if !drained {
        ok, entries := world.ReadPending();
        if ok {
          drained := true;
        }
      } else {
        ok, entries := world.ReadNew();
      }
    }

    ghost predicate AllDealtWith(entries: seq<nat>)
      reads this, world
    {
      forall e :: e in entries ==> DealtWith(e)
    }

    predicate AnyPoison(entries: seq<nat>)
      reads this, world
    {
      exists e :: e in entries && Poison(e)
    }

    /** Deliver a whole batch, one entry after the other. */
    method DeliverAll(entries: seq<nat>) returns (alive: bool)
      requires world.Valid() && world.Thread() == TakeUp(world.cfg, Client(Top, true, true, entries))
      modifies world
      ensures world.Valid() && world.Later() && world.AllFine(old(world.calls), world.calls - 1)
      ensures alive <==> world.AllFine(old(world.calls), world.calls) && !AnyPoison(entries)
      ensures world.Thread() == if alive then Client(Top, true, true, []) else Restarted(world.cfg)
      ensures alive ==> AllDealtWith(entries)
      ensures entries == [] ==> alive && world.server == old(world.server)
    {
      alive := true;
      var i := 0;
      while alive && i < |entries|
        invariant 0 <= i <= |entries| && world.Valid() && world.Later()
        invariant world.AllFine(old(world.calls), world.calls - 1)
        invariant alive <==> world.AllFine(old(world.calls), world.calls) && !AnyPoison(entries[..i])
        invariant world.Thread() ==
          if alive then TakeUp(world.cfg, Client(Top, true, true, entries[i..])) else Restarted(world.cfg)
        invariant alive ==> AllDealtWith(entries[..i])
        invariant i == 0 ==> alive && world.server == old(world.server)
      {
        assert entries[i..][1..] == entries[i + 1..];
        assert entries[..i + 1] == entries[..i] + [entries[i]];
        label Before:
        alive := Deliver(entries[i]);
        forall e | e in entries[..i] && old@Before(DealtWith(e)) ensures DealtWith(e) {
          StaysDealtWith@Before(e);
        }
        i := i + 1;
      }
    }

    /**
     One turn of the read loop. It is interrupted if and only if a call of it fails or, with the DLQ off, an
     entry it has read does not decode. A turn that is not interrupted leaves the pending entries drained and
     all it has read dealt with, and idles only when nothing is left to read.
     */
    method Turn() returns (alive: bool, entries: seq<nat>)
      requires Valid()
      modifies this, world
      ensures Valid() && CallsMade()
      ensures alive <==> world.AllFine(old(world.calls), world.calls) && !AnyPoison(entries)
      ensures if alive then groupReady && drained else !groupReady && drained == !world.cfg.atLeastOnce
      ensures alive ==> AllDealtWith(entries)
      ensures alive && old(drained) && entries == [] ==> world.server.delivered >= |world.server.stream|
    {
      entries := [];
      if !groupReady {
        alive := world.CreateGroup();
        if !alive {
          StartOver();
          return;
        }
        groupReady := true;
      }
      alive, entries := ReadThenDeliver();
      if !alive {
        StartOver();
      }
    }

    method ReadThenDeliver() returns (alive: bool, entries: seq<nat>)
      requires Valid() && groupReady
      modifies this, world
      ensures CallsMade()
      ensures alive <==> world.AllFine(old(world.calls), world.calls) && !AnyPoison(entries)
      ensures if alive then Valid() && groupReady && drained else world.Thread() == Restarted(world.cfg)
      ensures alive ==> AllDealtWith(entries)
      ensures alive && old(drained) && entries == [] ==> world.server.delivered >= |world.server.stream|
    {
      alive, entries := ReadBatch();
      if alive {
        alive := DeliverAll(entries);
      } else {
        entries := [];
      }
    }

    /** Nothing on the stream keeps the thread from going on: all of it decodes, or can be parked. */
    ghost predicate Readable()
      reads this, world
    {
      world.cfg.dlqOn || forall e: nat :: e < |world.server.stream| ==> world.server.stream[e].body.Some?
    }

    /**
     Any number of turns, with anything happening in between. Every promise about runs of the machine
     holds of where they lead: no occurrence is remediated twice, and once the thread has drained, nothing
     it was ever handed under at_least_once is left unacked. If the calls made go through, one turn is
     enough to have every diagnosis answered that was pending on entry.
     */
    method Run(turns: nat)
      requires Valid()
      modifies this, world
      ensures Valid() && world.Later() && old(world.calls) + turns <= world.calls
      ensures Sound(world.cfg, world.View())
      ensures forall o :: multiset(world.history.started)[o] <= 1
      ensures world.cfg.atLeastOnce && drained ==> OwnedBy(world.server.pending, world.name) == {}
      ensures turns > 0 && world.AllFine(old(world.calls), world.calls) && Readable() ==> groupReady && drained
      ensures world.cfg.atLeastOnce && turns > 0 && world.AllFine(old(world.calls), world.calls) && Readable() ==>
        forall e :: e in old(OwnedBy(world.server.pending, world.name)) ==> Answered(world.View(), e)
    {
      for i := 0 to turns
        invariant Valid() && world.Later() && old(world.calls) + i <= world.calls
        invariant i > 0 && world.AllFine(old(world.calls), world.calls) && Readable() ==> groupReady && drained
      {
        var _, entries := Turn();
        assert Readable() ==> !AnyPoison(entries);
      }
      Lead(old(world.calls), old(world.View()));
    }

    /** Where a run leads, given where it started. */
    lemma Lead(calls: nat, was: State)
      requires Valid() && calls <= world.calls && StandsAt(world.plan, calls, was)
      ensures Sound(world.cfg, world.View())
      ensures forall o :: multiset(world.history.started)[o] <= 1
      ensures world.cfg.atLeastOnce && drained ==> OwnedBy(world.server.pending, world.name) == {}
      ensures world.cfg.atLeastOnce && drained ==>
        forall e :: e in OwnedBy(was.server.pending, world.name) ==> Answered(world.View(), e)
    {
      var steps := Schedule(world.plan, world.calls);
      RunIsSound(world.cfg, steps);
      forall o ensures multiset(world.history.started)[o] <= 1 {
        AtMostOneRemediation(world.cfg, steps, o);
      }
      if world.cfg.atLeastOnce && drained {
        assert HoldsOne(OwnedBy(world.server.pending, world.name), world.Thread());
        ScheduleGrows(world.plan, calls, world.calls);
        PendingFollows(world.cfg, Schedule(world.plan, calls), steps, world.name);
        forall e | e in OwnedBy(was.server.pending, world.name) ensures Answered(world.View(), e) {
          NoAckBeforeOutcome(world.cfg, steps, e);
        }
      }
    }
  }
}
