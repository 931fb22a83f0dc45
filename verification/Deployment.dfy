/**
 Redis and the rest of the deployment, as one consumer thread meets them: an object with one method per
 command. Before each command the other threads and the publishers act, and the command itself may be
 lost on the way out or on the way back; `fate` lays all of this down. The object's state is exactly the
 one that the delivery machine reaches by the steps laid down for the calls made so far.
*/
module Deployments {
  import opened Prelude
  import opened Delivery
  import opened DeliverySafety

  /** What a call meets: steps taken elsewhere before it, and its own fate. */
  datatype Call = Call(others: seq<Step>, fault: Fault, playbookFound: bool)

  predicate IsStepOf(step: Step, c: nat) {
    step.Act? && step.consumer == c
  }

  /** The steps that are not thread `c`'s own. */
  function OthersOf(steps: seq<Step>, c: nat): seq<Step> {
    if steps == [] then []
    else
      var last := |steps| - 1;
      OthersOf(steps[..last], c) + if IsStepOf(steps[last], c) then [] else [steps[last]]
  }

  lemma OthersOneMore(steps: seq<Step>, i: nat, c: nat)
    requires i < |steps|
    ensures OthersOf(steps[..i + 1], c) == OthersOf(steps[..i], c) + if IsStepOf(steps[i], c) then [] else [steps[i]]
  {
    assert steps[..i + 1][..i] == steps[..i];
  }

  /** What is laid down for one thread: who it is, under which settings, and what its calls meet. */
  datatype Plan = Plan(cfg: Config, name: nat, fate: nat -> Call)

  /** The steps behind the first `n` calls. */
  function Schedule(plan: Plan, n: nat): seq<Step> {
    if n == 0 then []
    else Schedule(plan, n - 1) + OthersOf(plan.fate(n - 1).others, plan.name) + [OwnStep(plan.name, plan.fate(n - 1))]
  }

  /** The steps before call `k` itself. */
  function UpToCall(plan: Plan, k: nat): seq<Step> {
    Schedule(plan, k) + OthersOf(plan.fate(k).others, plan.name)
  }

  /** `s` is the state after `n` calls; the machine is unfolded only where its schedule is spoken of. */
  ghost predicate StandsAt(plan: Plan, n: nat, s: State) {
    forall k: nat {:trigger Schedule(plan, k)} :: k == n ==> s == Run(plan.cfg, Schedule(plan, k))
  }

  /** `s` is the state that call `k` comes upon, after the others have acted. */
  ghost predicate Meets(plan: Plan, k: nat, s: State) {
    forall j: nat {:trigger Schedule(plan, j)} :: j == k ==> s == Run(plan.cfg, UpToCall(plan, j))
  }

  function OwnStep(c: nat, call: Call): Step {
    Act(c, call.fault, call.playbookFound)
  }

  lemma OthersLeaveAlone(cfg: Config, s: State, step: Step, c: nat)
    requires Shaped(cfg, s) && !IsStepOf(step, c)
    requires step.Act? ==> InHand(s.server, ClientOf(cfg, s, step.consumer))
    ensures ClientOf(cfg, Next(cfg, s, step), c) == ClientOf(cfg, s, c)
    ensures s.server.stream <= Next(cfg, s, step).server.stream
  {
    if step.Act? {
      EffectGrows(s.server, s.history, step.consumer, ClientOf(cfg, s, step.consumer), step.playbookFound);
    }
  }

  /** Every claimed key stays claimed, and what is past being claimed does not go back to it. */
  ghost predicate MarksAdvance(marks: map<GuardKey, Mark>, marks': map<GuardKey, Mark>) {
    && marks.Keys <= marks'.Keys
    && forall key :: key in marks && marks[key] != Claimed ==> key in marks' && marks'[key] != Claimed
  }

  lemma EffectAdvancesMarks(server: Server, h: History, c: nat, cl: Client, playbookFound: bool)
    requires InHand(server, cl)
    ensures MarksAdvance(server.marks, Effect(server, h, c, cl, playbookFound).0.marks)
  {
  }

  /** Later in a run the stream has grown, keys are still claimed and events still recorded. */
  lemma {:induction false} RunGrows(cfg: Config, earlier: seq<Step>, later: seq<Step>)
    requires earlier <= later
    ensures
      var s, s' := Run(cfg, earlier), Run(cfg, later);
      && s.server.stream <= s'.server.stream && MarksAdvance(s.server.marks, s'.server.marks)
      && Remembers(s.history, s'.history)
    decreases |later|
  {
    if earlier != later {
      var front, step := later[..|later| - 1], later[|later| - 1];
      RunGrows(cfg, earlier, front);
      var s := Run(cfg, front);
      if step.Act? {
        assert InHand(s.server, ClientOf(cfg, s, step.consumer));
        EffectGrows(s.server, s.history, step.consumer, ClientOf(cfg, s, step.consumer), step.playbookFound);
        EffectAdvancesMarks(s.server, s.history, step.consumer, ClientOf(cfg, s, step.consumer), step.playbookFound);
      EffectRemembers(s.server, s.history, step.consumer, ClientOf(cfg, s, step.consumer), step.playbookFound);
      }
    } else {
      assert earlier == later;
    }
  }

  /** Where the generator's resumption leaves the thread: about to ack, or done with the entry. */
  function Resumed(cfg: Config, cl: Client): Client
    requires cl.batch != []
  {
    if cfg.atLeastOnce then cl.(at := Ack) else NextEntry(cfg, cl)
  }

  // ---------------------------------------------------------------- the steps behind the commands

  function AfterAck(cfg: Config, cl: Client): Client
    requires cl.batch != []
  {
    if cl.at.AckFirst? then cl.(at := Yield)
    else if cl.at.ParkAck? then cl.(at := ParkForget)
    else if cfg.dlqOn then cl.(at := Forget)
    else NextEntry(cfg, cl)
  }

  function AfterHandOut(cfg: Config, cl: Client, fields: Entry): Client {
    if fields.body.None? then if cfg.dlqOn then cl.(at := ParkUndecodable) else Restarted(cfg)
    else cl.(at := if fields.eventId.Some? then ClaimEvent else ClaimExec)
  }

  function AfterState(cfg: Config, cl: Client, mark: Option<Mark>): Client
    requires cl.batch != []
  {
    if cl.at.ReadEvent? then if mark == Some(Done) then Resumed(cfg, cl) else cl.(at := ClaimExec)
    else cl.(at := if mark == Some(Done) then Resume else PublishOutcome(Interrupted))
  }

  function AfterSet(cfg: Config, cl: Client): Client
    requires cl.batch != []
  {
    if cl.at.MarkRunning? then cl.(at := Remediate)
    else if cl.at.MarkExecDone? then cl.(at := Resume)
    else Resumed(cfg, cl)
  }

  lemma ReadStep(cfg: Config, server: Server, h: History, c: nat, cl: Client, found: bool)
    requires InHand(server, cl) && cl.at.Top? && cl.groupReady && cl.drained
    ensures
      var more := server.delivered < |server.stream|;
      && Effect(server, h, c, cl, found) ==
           (if more
            then server.(pending := server.pending[server.delivered := c], delivered := server.delivered + 1)
            else server, h)
      && Advance(cfg, server, c, cl, found) == TakeUp(cfg, cl.(batch := if more then [server.delivered] else []))
  {
  }

  lemma AckStep(cfg: Config, server: Server, h: History, c: nat, cl: Client, found: bool)
    requires InHand(server, cl) && (cl.at.AckFirst? || cl.at.ParkAck? || cl.at.Ack?)
    ensures Effect(server, h, c, cl, found) ==
      (server.(pending := server.pending - {cl.batch[0]}), h.(acked := h.acked + {cl.batch[0]}))
    ensures Advance(cfg, server, c, cl, found) == AfterAck(cfg, cl)
  {
  }

  lemma ParkStep(cfg: Config, server: Server, h: History, c: nat, cl: Client, found: bool)
    requires InHand(server, cl) && (cl.at.Park? || cl.at.ParkUndecodable?)
    ensures Effect(server, h, c, cl, found) == (server, h.(parked := h.parked + {cl.batch[0]}))
    ensures Advance(cfg, server, c, cl, found) == if cl.at.Park? then cl.(at := ParkAck) else Resumed(cfg, cl)
  {
  }

  lemma DeleteStep(cfg: Config, server: Server, h: History, c: nat, cl: Client, found: bool)
    requires InHand(server, cl) && (cl.at.ParkForget? || cl.at.Forget?)
    ensures Effect(server, h, c, cl, found) == (server.(attempts := server.attempts - {cl.batch[0]}), h)
    ensures Advance(cfg, server, c, cl, found) == NextEntry(cfg, cl)
  {
  }

  lemma HandOutStep(cfg: Config, server: Server, h: History, c: nat, cl: Client, found: bool)
    requires InHand(server, cl) && cl.at.Yield?
    ensures Effect(server, h, c, cl, found) == (server, h.(yielded := h.yielded + [(c, cl.batch[0])]))
    ensures Advance(cfg, server, c, cl, found) == AfterHandOut(cfg, cl, server.stream[cl.batch[0]])
  {
  }

  lemma CountStep(cfg: Config, server: Server, h: History, c: nat, cl: Client, found: bool)
    requires InHand(server, cl) && cl.at.CountAttempt?
    ensures
      var attempts := Attempts(server, cl.batch[0]) + 1;
      && Effect(server, h, c, cl, found) == (server.(attempts := server.attempts[cl.batch[0] := attempts]), h)
      && Advance(cfg, server, c, cl, found) == cl.(at := ExpireCount(attempts))
  {
  }

  lemma ClaimStep(cfg: Config, server: Server, h: History, c: nat, cl: Client, found: bool, key: GuardKey)
    requires InHand(server, cl) && (cl.at.ClaimEvent? || cl.at.ClaimExec?)
    requires key == if cl.at.ClaimEvent? then EventKeyOf(server, cl) else ExecKeyOf(server, cl)
    ensures Effect(server, h, c, cl, found) == (server.(marks := Claim(server.marks, key)), h)
    ensures Advance(cfg, server, c, cl, found) == cl.(at :=
      if cl.at.ClaimEvent? then if key in server.marks then ReadEvent else ClaimExec
      else if key in server.marks then ReadExec else MarkRunning)
  {
  }

  lemma SetStep(cfg: Config, server: Server, h: History, c: nat, cl: Client, found: bool, key: GuardKey, mark: Mark)
    requires InHand(server, cl)
    requires if mark.InProgress? then cl.at.MarkRunning?
      else mark.Done? && (cl.at.MarkExecDone? || cl.at.MarkEventDone?)
    requires key == if cl.at.MarkEventDone? then EventKeyOf(server, cl) else ExecKeyOf(server, cl)
    ensures Effect(server, h, c, cl, found) == (server.(marks := server.marks[key := mark]), h)
    ensures Advance(cfg, server, c, cl, found) == AfterSet(cfg, cl)
  {
  }

  lemma StateStep(cfg: Config, server: Server, h: History, c: nat, cl: Client, found: bool, key: GuardKey)
    requires InHand(server, cl) && (cl.at.ReadEvent? || cl.at.ReadExec?)
    requires key == if cl.at.ReadEvent? then EventKeyOf(server, cl) else ExecKeyOf(server, cl)
    ensures Effect(server, h, c, cl, found) == (server, h)
    ensures Advance(cfg, server, c, cl, found) ==
      AfterState(cfg, cl, if key in server.marks then Some(server.marks[key]) else None)
  {
  }

  lemma RemediateStep(cfg: Config, server: Server, h: History, c: nat, cl: Client, found: bool)
    requires InHand(server, cl) && cl.at.Remediate?
    ensures Effect(server, h, c, cl, found) ==
      (server, if found then h.(started := h.started + [OccurrenceOf(server, cl)]) else h)
    ensures Advance(cfg, server, c, cl, found) == cl.(at := PublishOutcome(if found then Ran else Escalated))
  {
  }

  lemma PublishStep(cfg: Config, server: Server, h: History, c: nat, cl: Client, found: bool)
    requires InHand(server, cl) && cl.at.PublishOutcome?
    ensures Effect(server, h, c, cl, found) ==
      (server, h.(outcomes := h.outcomes + [Announcement(OccurrenceOf(server, cl), cl.at.kind)]))
    ensures Advance(cfg, server, c, cl, found) == cl.(at := MarkExecDone)
  {
  }

  lemma ReturnStep(cfg: Config, server: Server, h: History, c: nat, cl: Client, found: bool)
    requires InHand(server, cl) && cl.at.Resume?
    ensures Effect(server, h, c, cl, found) == (server, h.(finished := h.finished + {cl.batch[0]}))
    ensures Advance(cfg, server, c, cl, found) ==
      if server.stream[cl.batch[0]].eventId.Some? then cl.(at := MarkEventDone) else Resumed(cfg, cl)
  {
  }

  function AfterCall(cfg: Config, s: State, c: nat, call: Call, after: Server, record: History): State
    requires InHand(s.server, ClientOf(cfg, s, c))
  {
    State(
      if call.fault.RequestLost? then s.server else after,
      if call.fault.RequestLost? then s.history else record,
      s.clients[c := if call.fault.Fine? then Advance(cfg, s.server, c, ClientOf(cfg, s, c), call.playbookFound)
        else Restarted(cfg)])
  }

  lemma CallIsStep(cfg: Config, s: State, c: nat, call: Call, after: Server, record: History)
    requires Shaped(cfg, s) && InHand(s.server, ClientOf(cfg, s, c))
    requires (after, record) == Effect(s.server, s.history, c, ClientOf(cfg, s, c), call.playbookFound)
    ensures Next(cfg, s, OwnStep(c, call)) == AfterCall(cfg, s, c, call, after, record)
    ensures after.stream == s.server.stream
  {
    EffectGrows(s.server, s.history, c, ClientOf(cfg, s, c), call.playbookFound);
  }

  lemma ScheduleNext(plan: Plan, k: nat)
    ensures Schedule(plan, k + 1) == UpToCall(plan, k) + [OwnStep(plan.name, plan.fate(k))]
  {
  }

  lemma RunNext(cfg: Config, before: seq<Step>, s: State, c: nat, call: Call, after: Server, record: History)
    requires s == Run(cfg, before) && InHand(s.server, ClientOf(cfg, s, c))
    requires (after, record) == Effect(s.server, s.history, c, ClientOf(cfg, s, c), call.playbookFound)
    ensures Run(cfg, before + [OwnStep(c, call)]) == AfterCall(cfg, s, c, call, after, record)
    ensures after.stream == s.server.stream
  {
    assert Shaped(cfg, s);
    CallIsStep(cfg, s, c, call, after, record);
    RunOneMore(cfg, before, OwnStep(c, call));
  }

  lemma CallStep(plan: Plan, k: nat, s: State, after: Server, record: History)
    requires Meets(plan, k, s) && InHand(s.server, ClientOf(plan.cfg, s, plan.name))
    requires (after, record) ==
      Effect(s.server, s.history, plan.name, ClientOf(plan.cfg, s, plan.name), plan.fate(k).playbookFound)
    ensures StandsAt(plan, k + 1, AfterCall(plan.cfg, s, plan.name, plan.fate(k), after, record))
    ensures after.stream == s.server.stream
  {
    ScheduleNext(plan, k);
    RunNext(plan.cfg, UpToCall(plan, k), s, plan.name, plan.fate(k), after, record);
  }

  /** Counted by call `k`, this delivery of `e` is one too many. */
  ghost predicate TriedTooOften(plan: Plan, k: nat, e: nat) {
    forall met {:trigger Meets(plan, k, met)} :: Meets(plan, k, met) ==>
      Attempts(met.server, e) + 1 > plan.cfg.maxAttempts
  }

  lemma TriedTooOftenIff(plan: Plan, k: nat, met: State, e: nat)
    requires Meets(plan, k, met)
    ensures TriedTooOften(plan, k, e) <==> Attempts(met.server, e) + 1 > plan.cfg.maxAttempts
  {
    forall s | Meets(plan, k, s) ensures s == met {
      assert s == Run(plan.cfg, UpToCall(plan, k));
    }
  }

  lemma {:induction false} ScheduleGrows(plan: Plan, m: nat, n: nat)
    requires m <= n
    ensures Schedule(plan, m) <= Schedule(plan, n)
  {
    if m < n {
      ScheduleGrows(plan, m, n - 1);
    }
  }

  /** Later the stream has grown, keys are still claimed, and what had happened has happened. */
  lemma CallsGrow(plan: Plan, m: nat, s: State, n: nat, s': State)
    requires m <= n && StandsAt(plan, m, s) && StandsAt(plan, n, s')
    ensures s.server.stream <= s'.server.stream && MarksAdvance(s.server.marks, s'.server.marks)
    ensures Remembers(s.history, s'.history)
  {
    ScheduleGrows(plan, m, n);
    RunGrows(plan.cfg, Schedule(plan, m), Schedule(plan, n));
  }

  lemma MetGrows(plan: Plan, m: nat, s: State, k: nat, met: State)
    requires m <= k && StandsAt(plan, m, s) && Meets(plan, k, met)
    ensures s.server.marks.Keys <= met.server.marks.Keys
  {
    ScheduleGrows(plan, m, k);
    RunGrows(plan.cfg, Schedule(plan, m), UpToCall(plan, k));
  }

  class Deployment {
    const plan: Plan
    const cfg: Config := plan.cfg
    const name: nat := plan.name
    var calls: nat
    var server: Server
    var history: History
    var clients: map<nat, Client>
    ghost var executions: seq<Occurrence>
    ghost var handouts: seq<nat>
    ghost var met: State

    function View(): State
      reads this
    {
      State(server, history, clients)
    }

    /** The state is the machine's after exactly the steps laid down for the calls made so far. */
    ghost predicate Valid()
      reads this
    {
      StandsAt(plan, calls, View()) && (calls > 0 ==> Meets(plan, calls - 1, met))
    }

    /** The position of the thread. */
    function Thread(): Client
      reads this
    {
      ClientOf(cfg, View(), name)
    }

    /** Call `k` gets as far as the server. */
    predicate Reached(k: nat) {
      !plan.fate(k).fault.RequestLost?
    }

    /** Call `k` goes through. */
    predicate Fine(k: nat) {
      plan.fate(k).fault.Fine?
    }

    /** Calls `from` up to `to` all go through. */
    predicate AllFine(from: nat, to: int) {
      forall k :: from <= k < to ==> Fine(k)
    }

    /** Time only adds: the calls made and the entries published stay. */
    twostate predicate Later()
      reads this
    {
      old(calls) <= calls && old(server.stream) <= server.stream
    }

    /** One call was made; it went through if and only if its fate says so. */
    twostate predicate Called(ok: bool)
      reads this
    {
      Valid() && Later() && calls == old(calls) + 1 && ok == Fine(old(calls))
    }

    /** Keys once claimed stay claimed, and what has happened has happened. */
    twostate lemma Grows()
      requires old(Valid()) && Valid() && Later()
      ensures MarksAdvance(old(server.marks), server.marks) && Remembers(old(history), history)
      ensures old(calls) < calls ==> old(server.marks.Keys) <= met.server.marks.Keys
    {
      CallsGrow(plan, old(calls), old(View()), calls, View());
      if old(calls) < calls {
        MetGrows(plan, old(calls), old(View()), calls - 1, met);
      }
    }

    constructor (plan: Plan)
      ensures Valid() && this.plan == plan && calls == 0 && executions == [] && handouts == []
    {
      this.plan, calls := plan, 0;
      server, history, clients := Initial().server, Initial().history, map[];
      executions, handouts, met := [], [], Initial();
    }

    /** Another thread or a publisher acts; `before` are the steps taken so far. */
    method OtherActs(step: Step, ghost before: seq<Step>)
      requires View() == Run(cfg, before) && !IsStepOf(step, name)
      modifies this`server, this`history, this`clients
      ensures View() == Run(cfg, before + [step])
      ensures Later() && Thread() == old(Thread())
    {
      assert Shaped(cfg, View());
      assert step.Act? ==> InHand(server, ClientOf(cfg, View(), step.consumer));
      OthersLeaveAlone(cfg, View(), step, name);
      RunOneMore(cfg, before, step);
      var s := Next(cfg, View(), step);
      server, history, clients := s.server, s.history, s.clients;
    }

    /** The other threads and the publishers act; the thread's own steps are its own to take. */
    method OthersAct(others: seq<Step>, ghost before: seq<Step>)
      requires View() == Run(cfg, before)
      modifies this`server, this`history, this`clients
      ensures View() == Run(cfg, before + OthersOf(others, name))
      ensures Later() && Thread() == old(Thread())
    {
      var i := 0;
      ghost var sofar := before;
      while i < |others|
        invariant 0 <= i <= |others| && sofar == before + OthersOf(others[..i], name) && View() == Run(cfg, sofar)
        invariant Later() && Thread() == old(Thread())
      {
        OthersOneMore(others, i, name);
        if !IsStepOf(others[i], name) {
          OtherActs(others[i], sofar);
          sofar := sofar + [others[i]];
        }
        i := i + 1;
      }
      assert others[..i] == others;
    }

    method BeginCall() returns (call: Call)
      requires Valid()
      modifies this`server, this`history, this`clients
      ensures call == plan.fate(calls) && Meets(plan, calls, View())
      ensures Later() && Thread() == old(Thread()) && InHand(server, Thread())
    {
      call := plan.fate(calls);
      OthersAct(call.others, Schedule(plan, calls));
      assert View() == Run(cfg, UpToCall(plan, calls)) && Shaped(cfg, View());
    }

    /**
     The server acts, unless the request is lost, which turns it into `after` and the record into `record`;
     then the reply arrives, or does not.
     */
    method EndCall(call: Call, after: Server, record: History) returns (ok: bool)
      requires call == plan.fate(calls) && Meets(plan, calls, View()) && InHand(server, Thread())
      requires (after, record) == Effect(server, history, name, Thread(), call.playbookFound)
      modifies this`calls, this`server, this`history, this`clients, this`met
      ensures Called(ok) && met == old(View())
      ensures Thread() ==
        if ok then Advance(cfg, old(server), name, old(Thread()), call.playbookFound) else Restarted(cfg)
      ensures server == if call.fault.RequestLost? then old(server) else after
      ensures history == if call.fault.RequestLost? then old(history) else record
    {
      ok := call.fault.Fine?;
      CallStep(plan, calls, View(), after, record);
      met := View();
      clients := clients[name := if ok then Advance(cfg, server, name, Thread(), call.playbookFound)
        else Restarted(cfg)];
      if !call.fault.RequestLost? {
        server, history := after, record;
      }
      calls := calls + 1;
    }

    // -------------------------------------------------------------- commands of the bus

    method CreateGroup() returns (ok: bool)
      requires Valid() && Thread().at.Top? && !Thread().groupReady
      modifies this`calls, this`server, this`history, this`clients, this`met
      ensures Called(ok)
      ensures Thread() == if ok then old(Thread()).(groupReady := true) else Restarted(cfg)
      ensures Reached(old(calls)) ==> server.groupExists
    {
      var call := BeginCall();
      ok := EndCall(call, server.(groupExists := true), history);
    }

    /** Read back what this consumer has pending. */
    method ReadPending() returns (ok: bool, entries: seq<nat>)
      requires Valid() && Thread().at.Top? && Thread().groupReady && !Thread().drained
      modifies this`calls, this`server, this`history, this`clients, this`met
      ensures Called(ok)
      ensures ok ==> entries == FirstBatch(PendingOf(server.pending, name, server.delivered))
      ensures Thread() == if ok then TakeUp(cfg, old(Thread()).(drained := true, batch := entries)) else Restarted(cfg)
      ensures server == met.server
    {
      var call := BeginCall();
      entries := FirstBatch(PendingOf(server.pending, name, server.delivered));
      ok := EndCall(call, server, history);
    }

    /** Read the next entry nobody in the group has been given, if there is one. */
    method ReadNew() returns (ok: bool, entries: seq<nat>)
      requires Valid() && Thread().at.Top? && Thread().groupReady && Thread().drained
      modifies this`calls, this`server, this`history, this`clients, this`met
      ensures Called(ok)
      ensures Thread() == if ok then TakeUp(cfg, old(Thread()).(batch := entries)) else Restarted(cfg)
      ensures var met := met.server;
        && entries == (if met.delivered < |met.stream| then [met.delivered] else [])
        && server.stream == met.stream
        && server.delivered == met.delivered + (if Reached(old(calls)) then |entries| else 0)
        && server.pending ==
             if Reached(old(calls)) && entries != [] then met.pending[entries[0] := name] else met.pending
    {
      var call := BeginCall();
      ReadStep(cfg, server, history, name, Thread(), call.playbookFound);
      var after := server;
      entries := [];
      if server.delivered < |server.stream| {
        entries := [server.delivered];
        after := server.(pending := server.pending[server.delivered := name], delivered := server.delivered + 1);
      }
      ok := EndCall(call, after, history);
    }

    method AckEntry(e: nat) returns (ok: bool)
      requires Valid() && (Thread().at.AckFirst? || Thread().at.ParkAck? || Thread().at.Ack?)
      requires Thread().batch != [] && Thread().batch[0] == e
      modifies this`calls, this`server, this`history, this`clients, this`met
      ensures Called(ok)
      ensures Thread() == if ok then AfterAck(cfg, old(Thread())) else Restarted(cfg)
      ensures Reached(old(calls)) ==> e in history.acked && e !in server.pending
    {
      var call := BeginCall();
      AckStep(cfg, server, history, name, Thread(), call.playbookFound);
      ok := EndCall(call, server.(pending := server.pending - {e}), history.(acked := history.acked + {e}));
    }

    /** Count a delivery attempt. */
    method Increment(e: nat) returns (ok: bool, attempts: nat)
      requires Valid() && Thread().at.CountAttempt? && Thread().batch != [] && Thread().batch[0] == e
      modifies this`calls, this`server, this`history, this`clients, this`met
      ensures Called(ok)
      ensures attempts == Attempts(met.server, e) + 1
      ensures Reached(old(calls)) ==> Attempts(server, e) == attempts
      ensures Thread() == if ok then old(Thread()).(at := ExpireCount(attempts)) else Restarted(cfg)
    {
      var call := BeginCall();
      CountStep(cfg, server, history, name, Thread(), call.playbookFound);
      attempts := Attempts(server, e) + 1;
      ok := EndCall(call, server.(attempts := server.attempts[e := attempts]), history);
    }

    method ExpireCounter() returns (ok: bool)
      requires Valid() && Thread().at.ExpireCount?
      modifies this`calls, this`server, this`history, this`clients, this`met
      ensures Called(ok)
      ensures Thread() ==
        if !ok then Restarted(cfg)
        else old(Thread()).(at := if old(Thread()).at.attempts > cfg.maxAttempts then Park else Yield)
    {
      var call := BeginCall();
      ok := EndCall(call, server, history);
    }

    /** Put a copy of the entry on the dead-letter stream. */
    method SendToDlq(e: nat) returns (ok: bool)
      requires Valid() && (Thread().at.Park? || Thread().at.ParkUndecodable?)
      requires Thread().batch != [] && Thread().batch[0] == e
      modifies this`calls, this`server, this`history, this`clients, this`met
      ensures Called(ok)
      ensures Thread() ==
        if !ok then Restarted(cfg)
        else if old(Thread()).at.Park? then old(Thread()).(at := ParkAck)
        else Resumed(cfg, old(Thread()))
      ensures Reached(old(calls)) ==> e in history.parked
    {
      var call := BeginCall();
      ParkStep(cfg, server, history, name, Thread(), call.playbookFound);
      ok := EndCall(call, server, history.(parked := history.parked + {e}));
    }

    method DeleteCounter(e: nat) returns (ok: bool)
      requires Valid() && (Thread().at.ParkForget? || Thread().at.Forget?)
      requires Thread().batch != [] && Thread().batch[0] == e
      modifies this`calls, this`server, this`history, this`clients, this`met
      ensures Called(ok)
      ensures Thread() == if ok then NextEntry(cfg, old(Thread())) else Restarted(cfg)
      ensures Reached(old(calls)) ==> Attempts(server, e) == 0
    {
      var call := BeginCall();
      DeleteStep(cfg, server, history, name, Thread(), call.playbookFound);
      ok := EndCall(call, server.(attempts := server.attempts - {e}), history);
    }

    /** The bus yields the entry's fields; the answer is what the caller finds in them. */
    method HandOut(e: nat) returns (ok: bool, fields: Entry)
      requires Valid() && Thread().at.Yield? && Thread().batch != [] && Thread().batch[0] == e
      modifies this`calls, this`server, this`history, this`clients, this`met, this`handouts
      ensures Called(ok)
      ensures e < |server.stream| && fields == server.stream[e]
      ensures Thread() == if ok then AfterHandOut(cfg, old(Thread()), fields) else Restarted(cfg)
      ensures var given := if Reached(old(calls)) then [e] else [];
        handouts == old(handouts) + given &&
        history.yielded == met.history.yielded + if Reached(old(calls)) then [(name, e)] else []
    {
      var call := BeginCall();
      HandOutStep(cfg, server, history, name, Thread(), call.playbookFound);
      fields := server.stream[e];
      if !call.fault.RequestLost? {
        handouts := handouts + [e];
      }
      ok := EndCall(call, server, history.(yielded := history.yielded + [(name, e)]));
    }

    // -------------------------------------------------------------- commands of the guard

    /** The key of the claim the thread is at. */
    predicate ForKey(e: nat, key: GuardKey)
      reads this
    {
      && Thread().batch != [] && Thread().batch[0] == e && e < |server.stream|
      && (if Thread().at.ClaimEvent? || Thread().at.ReadEvent? || Thread().at.MarkEventDone?
          then server.stream[e].eventId.Some? && key == EventKey(server.stream[e].eventId.value)
          else server.stream[e].body.Some? && key == ExecKey(server.stream[e].body.value))
    }

    method ClaimKey(e: nat, key: GuardKey) returns (ok: bool, won: bool)
      requires Valid() && (Thread().at.ClaimEvent? || Thread().at.ClaimExec?) && ForKey(e, key)
      modifies this`calls, this`server, this`history, this`clients, this`met
      ensures Called(ok)
      ensures Thread() ==
        if !ok then Restarted(cfg)
        else if old(Thread()).at.ClaimEvent? then old(Thread()).(at := if won then ClaimExec else ReadEvent)
        else old(Thread()).(at := if won then MarkRunning else ReadExec)
      ensures won <==> key !in met.server.marks
      ensures server.marks == if Reached(old(calls)) then Claim(met.server.marks, key) else met.server.marks
    {
      var call := BeginCall();
      ClaimStep(cfg, server, history, name, Thread(), call.playbookFound, key);
      won := key !in server.marks;
      ok := EndCall(call, server.(marks := Claim(server.marks, key)), history);
    }

    method StateOf(e: nat, key: GuardKey) returns (ok: bool, mark: Option<Mark>)
      requires Valid() && (Thread().at.ReadEvent? || Thread().at.ReadExec?) && ForKey(e, key)
      modifies this`calls, this`server, this`history, this`clients, this`met
      ensures Called(ok)
      ensures Thread() == if ok then AfterState(cfg, old(Thread()), mark) else Restarted(cfg)
      ensures server == met.server
      ensures mark == if key in server.marks then Some(server.marks[key]) else None
    {
      var call := BeginCall();
      StateStep(cfg, server, history, name, Thread(), call.playbookFound, key);
      mark := if key in server.marks then Some(server.marks[key]) else None;
      ok := EndCall(call, server, history);
    }

    method SetState(e: nat, key: GuardKey, mark: Mark) returns (ok: bool)
      requires Valid() && ForKey(e, key)
      requires if mark.InProgress? then Thread().at.MarkRunning?
        else mark.Done? && (Thread().at.MarkExecDone? || Thread().at.MarkEventDone?)
      modifies this`calls, this`server, this`history, this`clients, this`met
      ensures Called(ok)
      ensures Thread() == if ok then AfterSet(cfg, old(Thread())) else Restarted(cfg)
      ensures Reached(old(calls)) ==> key in server.marks && server.marks[key] == mark
    {
      var call := BeginCall();
      SetStep(cfg, server, history, name, Thread(), call.playbookFound, key, mark);
      ok := EndCall(call, server.(marks := server.marks[key := mark]), history);
    }

    // -------------------------------------------------------------- the handler's own effects

    /** Run the playbook on the cluster, if there is one. */
    method Remediate(e: nat, o: Occurrence) returns (ok: bool, playbookFound: bool)
      requires Valid() && Thread().at.Remediate? && ForKey(e, ExecKey(o))
      modifies this`calls, this`server, this`history, this`clients, this`met, this`executions
      ensures Called(ok)
      ensures Thread() ==
        if ok then old(Thread()).(at := PublishOutcome(if playbookFound then Ran else Escalated)) else Restarted(cfg)
      ensures playbookFound == plan.fate(old(calls)).playbookFound
      ensures var ran := if playbookFound && Reached(old(calls)) then [o] else [];
        executions == old(executions) + ran && history.started == met.history.started + ran
    {
      var call := BeginCall();
      RemediateStep(cfg, server, history, name, Thread(), call.playbookFound);
      playbookFound := call.playbookFound;
      if playbookFound && !call.fault.RequestLost? {
        executions := executions + [o];
      }
      ok := EndCall(call, server, if playbookFound then history.(started := history.started + [o]) else history);
    }

    method Publish(e: nat, o: Occurrence, kind: OutcomeKind) returns (ok: bool)
      requires Valid() && Thread().at == PublishOutcome(kind) && ForKey(e, ExecKey(o))
      modifies this`calls, this`server, this`history, this`clients, this`met
      ensures Called(ok)
      ensures Thread() == if ok then old(Thread()).(at := MarkExecDone) else Restarted(cfg)
      ensures Reached(old(calls)) ==> Announcement(o, kind) in history.outcomes
    {
      var call := BeginCall();
      PublishStep(cfg, server, history, name, Thread(), call.playbookFound);
      ok := EndCall(call, server, history.(outcomes := history.outcomes + [Announcement(o, kind)]));
    }

    /** The handler returns, unless the process is stopped or dies first. */
    method HandlerReturns(e: nat, fields: Entry) returns (ok: bool)
      requires Valid() && Thread().at.Resume? && Thread().batch != [] && Thread().batch[0] == e
      requires e < |server.stream| && server.stream[e] == fields
      modifies this`calls, this`server, this`history, this`clients, this`met
      ensures Called(ok)
      ensures Thread() ==
        if !ok then Restarted(cfg)
        else if fields.eventId.Some? then old(Thread()).(at := MarkEventDone)
        else Resumed(cfg, old(Thread()))
      ensures Reached(old(calls)) ==> e in history.finished
    {
      var call := BeginCall();
      ReturnStep(cfg, server, history, name, Thread(), call.playbookFound);
      ok := EndCall(call, server, history.(finished := history.finished + {e}));
    }
  }
}
