/**
 The streaming endpoint's coroutine, written as the program writes it. Between any two of its actions the
 worker thread and the event loop act. The coroutine is proved to move only along runs of module
 AgentStream, by exactly the actions its code makes, so what is proved there of all runs holds of it.
*/
module RunStreams {
  import opened AgentStream

  /** Why a stream ended: the run was over before it followed, it sent the outcome, or the client left. */
  datatype Ending = RunWasOver | OutcomeSent | ClientLeft

  /** The client's own actions; all others are the worker's and the event loop's. */
  predicate IsOwn(step: Step) {
    step.Subscribe? || step.ReadStore? || step.CheckEnded? || step.Take? || step.Disconnect?
  }

  function Own(steps: seq<Step>): seq<Step> {
    if steps == [] then []
    else
      var last := |steps| - 1;
      Own(steps[..last]) + if IsOwn(steps[last]) then [steps[last]] else []
  }

  function Foreign(steps: seq<Step>): seq<Step> {
    if steps == [] then []
    else
      var last := |steps| - 1;
      Foreign(steps[..last]) + if IsOwn(steps[last]) then [] else [steps[last]]
  }

  lemma OwnAppend(steps: seq<Step>, step: Step)
    ensures Own(steps + [step]) == Own(steps) + if IsOwn(step) then [step] else []
  {
    assert (steps + [step])[..|steps|] == steps;
  }

  /** The coroutine takes a step of its own. */
  lemma TakeStep(steps: seq<Step>, step: Step, capacity: nat)
    requires IsOwn(step)
    ensures Run(steps + [step], capacity) == Next(Run(steps, capacity), step, capacity)
    ensures Own(steps + [step]) == Own(steps) + [step]
  {
    RunAppend(steps, step, capacity);
    OwnAppend(steps, step);
  }

  /** What belongs to the client is as it was, and what is stored stays. */
  predicate SameClient(s: State, s': State) {
    && s'.phase == s.phase && s'.joined == s.joined && s'.sent == s.sent && s'.maxSeq == s.maxSeq
    && s.stored <= s'.stored
  }

  lemma OthersLeaveClient(s: State, step: Step, capacity: nat)
    requires !IsOwn(step)
    ensures SameClient(s, Next(s, step, capacity))
  {
  }

  lemma {:induction false} ForeignIsForeign(steps: seq<Step>)
    ensures forall step :: step in Foreign(steps) ==> !IsOwn(step)
  {
    if steps != [] {
      ForeignIsForeign(steps[..|steps| - 1]);
    }
  }

  function Takes(n: nat): seq<Step> {
    if n == 0 then [] else Takes(n - 1) + [Take]
  }

  /** What the code does in a stream that ended for this reason after looking at its queue `n` times. */
  function Script(readable: bool, n: nat, why: Ending): seq<Step> {
    [Subscribe, ReadStore(readable), CheckEnded] + Takes(n) + if why.ClientLeft? then [Disconnect] else []
  }

  lemma Assembled(before: seq<Step>, readable: bool, n: nat, why: Ending, own: seq<Step>)
    requires why.RunWasOver? ==> n == 0 && own == before + [Subscribe] + [ReadStore(readable)] + [CheckEnded]
    requires why.OutcomeSent? ==> own == before + [Subscribe] + [ReadStore(readable)] + [CheckEnded] + Takes(n)
    requires why.ClientLeft? ==>
      own == before + [Subscribe] + [ReadStore(readable)] + [CheckEnded] + Takes(n) + [Disconnect]
    ensures own == before + Script(readable, n, why)
  {
    assert [Subscribe, ReadStore(readable), CheckEnded] == [Subscribe] + [ReadStore(readable)] + [CheckEnded];
  }

  lemma NothingSentYet(steps: seq<Step>, capacity: nat)
    requires Run(steps, capacity).phase.Idle?
    ensures Run(steps, capacity).sent == [] && Run(steps, capacity).maxSeq == -1
  {
    RunKeeps(steps, capacity);
  }

  lemma Shift<T>(before: seq<T>, todo: seq<T>, i: nat)
    requires i < |todo|
    ensures before + todo[..i] + [todo[i]] == before + todo[..i + 1] && todo[i] in todo
  {
  }

  class RunStream {
    const capacity: nat
    const others: nat -> seq<Step>
    var actions: nat
    var run: State
    ghost var steps: seq<Step>

    ghost predicate Valid()
      reads this
    {
      run == Run(steps, capacity)
    }

    constructor (capacity: nat, others: nat -> seq<Step>)
      ensures Valid() && this.capacity == capacity && this.others == others && steps == []
    {
      this.capacity, this.others, actions := capacity, others, 0;
      run, steps := NEW_RUN, [];
    }

    /** The worker publishes, stores or ends; the event loop delivers. */
    method OthersAct()
      requires Valid()
      modifies this
      ensures Valid() && steps == old(steps) + Foreign(others(old(actions))) && actions == old(actions) + 1
      ensures Own(steps) == Own(old(steps)) && SameClient(old(run), run)
    {
      var todo := Foreign(others(actions));
      actions := actions + 1;
      ForeignIsForeign(others(old(actions)));
      ghost var before, was := steps, run;
      var i := 0;
      while i < |todo|
        invariant 0 <= i <= |todo| && Valid() && actions == old(actions) + 1
        invariant steps == before + todo[..i] && Own(steps) == Own(before)
        invariant SameClient(was, run)
      {
        Shift(before, todo, i);
        Took(todo[i]);
        i := i + 1;
      }
      assert todo[..i] == todo;
    }

    /** One step taken elsewhere. */
    method Took(step: Step)
      requires Valid() && !IsOwn(step)
      modifies this`run, this`steps
      ensures Valid() && steps == old(steps) + [step] && Own(steps) == Own(old(steps))
      ensures SameClient(old(run), run)
    {
      OthersLeaveClient(run, step, capacity);
      RunAppend(steps, step, capacity);
      OwnAppend(steps, step);
      steps := steps + [step];
      run := Next(run, step, capacity);
    }

    method Join()
      requires Valid() && run.phase.Idle?
      modifies this
      ensures Valid() && Own(steps) == Own(old(steps)) + [Subscribe]
      ensures run.phase.Subscribed? && run.joined == |run.kinds|
      ensures run.sent == old(run.sent) && run.maxSeq == old(run.maxSeq) && old(run.stored) <= run.stored
    {
      OthersAct();
      run := run.(phase := Subscribed, joined := |run.kinds|);
      TakeStep(steps, Subscribe, capacity);
      steps := steps + [Subscribe];
    }

    /** Send these, remembering the largest number. */
    static method SendAll(stored: seq<nat>) returns (sent: seq<nat>, maxSeq: int)
      ensures sent == stored && maxSeq == LargestOf(stored, -1)
    {
      sent, maxSeq := [], -1;
      var i := 0;
      while i < |stored|
        invariant 0 <= i <= |stored| && sent == stored[..i] && maxSeq == LargestOf(stored[..i], -1)
      {
        assert stored[..i + 1][..i] == stored[..i];
        sent := sent + [stored[i]];
        maxSeq := if stored[i] > maxSeq then stored[i] else maxSeq;
        i := i + 1;
      }
      assert stored[..i] == stored;
    }

    /** Read the store and send what is there. */
    method Replay(readable: bool)
      requires Valid() && run.phase.Subscribed? && run.sent == [] && run.maxSeq == -1
      modifies this
      ensures Valid() && Own(steps) == Own(old(steps)) + [ReadStore(readable)]
      ensures run.phase.Replayed?
      ensures readable ==> old(run.stored) <= run.sent
    {
      OthersAct();
      var sent, maxSeq := SendAll(if readable then run.stored else []);
      run := run.(sent := sent, maxSeq := maxSeq, phase := Replayed, readFailed := !readable);
      TakeStep(steps, ReadStore(readable), capacity);
      steps := steps + [ReadStore(readable)];
    }

    /** Skip what the replay already sent, send anything newer, stop after the outcome. */
    method TakeNext()
      requires run.phase.Following?
      modifies this`run
      ensures run == Next(old(run), Take, capacity) && old(run.sent) <= run.sent
      ensures run.phase.Following? || (run.phase.Closed? && SentOutcome(run))
    {
      if run.queue != [] {
        var n := run.queue[0];
        run := run.(queue := run.queue[1..]);
        if n > run.maxSeq {
          run := run.(maxSeq := n, sent := run.sent + [n]);
          if n < |run.kinds| && run.kinds[n] {
            run := run.(phase := Closed);
          }
        }
      }
    }

    /** Look at the queue once. */
    method Follow()
      requires Valid() && run.phase.Following?
      modifies this
      ensures Valid() && Own(steps) == Own(old(steps)) + [Take]
      ensures run.phase.Following? || (run.phase.Closed? && SentOutcome(run))
      ensures old(run.sent) <= run.sent
    {
      OthersAct();
      TakeStep(steps, Take, capacity);
      TakeNext();
      steps := steps + [Take];
    }

    /** Close if the run is over, or else follow from here on. */
    method CloseIfEnded() returns (over: bool)
      requires Valid() && run.phase.Replayed?
      modifies this
      ensures Valid() && Own(steps) == Own(old(steps)) + [CheckEnded]
      ensures if over then run.phase.Closed? && run.ended else run.phase.Following?
      ensures run.sent == old(run.sent)
    {
      OthersAct();
      over := run.ended;
      run := run.(phase := if over then Closed else Following);
      TakeStep(steps, CheckEnded, capacity);
      steps := steps + [CheckEnded];
    }

    /** The queue loop. */
    method FollowAll(turns: nat) returns (done: bool, ghost n: nat)
      requires Valid() && run.phase.Following?
      modifies this
      ensures Valid() && Own(steps) == Own(old(steps)) + Takes(n) && n <= turns
      ensures if done then n > 0 && run.phase.Closed? && SentOutcome(run) else n == turns && run.phase.Following?
      ensures old(run.sent) <= run.sent
    {
      done := false;
      n := 0;
      var turn := 0;
      while turn < turns && !done
        invariant 0 <= turn <= turns && n == turn && Valid()
        invariant Own(steps) == Own(old(steps)) + Takes(n)
        invariant if done then n > 0 && run.phase.Closed? && SentOutcome(run) else run.phase.Following?
        invariant old(run.sent) <= run.sent
      {
        Follow();
        done := run.phase.Closed?;
        turn := turn + 1;
        n := n + 1;
      }
    }

    method Leave()
      requires Valid() && run.phase.Following?
      modifies this`run, this`steps
      ensures Valid() && Own(steps) == Own(old(steps)) + [Disconnect]
      ensures run == old(run).(phase := Closed)
    {
      run := run.(phase := Closed);
      TakeStep(steps, Disconnect, capacity);
      steps := steps + [Disconnect];
    }

    /**
     A client's whole stream, given up after `turns` looks at the queue. The coroutine acts exactly as its
     script says; whatever the others do, what it sends strictly increases, holds all that was stored when
     it came, and lacks below its largest number only what AgentStream excuses.
     */
    method Stream(readable: bool, turns: nat) returns (why: Ending, ghost n: nat)
      requires Valid() && run.phase.Idle?
      modifies this
      ensures Valid() && run.phase.Closed?
      ensures Own(steps) == Own(old(steps)) + Script(readable, n, why)
      ensures match why
        case RunWasOver => n == 0 && run.ended
        case OutcomeSent => 0 < n <= turns && SentOutcome(run)
        case ClientLeft => n == turns
      ensures Increasing(run.sent)
      ensures readable ==> old(run.stored) <= run.sent
      ensures forall largest, m: nat :: largest in run.sent && m < largest ==> Excused(run, m)
    {
      ghost var before := Own(steps);
      NothingSentYet(steps, capacity);
      Join();
      Replay(readable);
      n := 0;
      var over := CloseIfEnded();
      if over {
        why := RunWasOver;
      } else {
        var done;
        done, n := FollowAll(turns);
        why := if done then OutcomeSent else ClientLeft;
        if !done {
          Leave();
        }
      }
      Assembled(before, readable, n, why, Own(steps));
      Promises();
    }

    /** What module AgentStream proves of every run. */
    lemma Promises()
      requires Valid()
      ensures Increasing(run.sent)
      ensures forall largest, m: nat :: largest in run.sent && m < largest ==> Excused(run, m)
    {
      SentStrictlyIncreases(steps, capacity);
      forall largest, m: nat | largest in run.sent && m < largest ensures Excused(run, m) {
        EveryGapHasAReason(steps, capacity, largest, m);
      }
    }
  }

  /** The last number sent is that of the closing outcome. */
  predicate SentOutcome(s: State) {
    s.sent != [] && s.sent[|s.sent| - 1] < |s.kinds| && s.kinds[s.sent[|s.sent| - 1]]
  }
}
