/**
 Streaming a drafting run's trace to one browser: a worker thread numbers, publishes and stores the
 steps; the stream subscribes, replays what is stored, and then follows its queue.

 Publishing hands a step to the event loop (`inbox`), which delivers it into the subscriber's bounded
 queue in the same order, dropping the oldest when it is full. Steps are known by their number; `kinds`
 says which of them is the closing outcome. The store may fail to write a step or to be read.
*/
module AgentStream {
  import opened Prelude

  datatype Phase = Idle | Subscribed | Replayed | Following | Closed

  datatype State = State(
    kinds: seq<bool>,
    storing: bool,
    stored: seq<nat>,
    ended: bool,
    phase: Phase,
    joined: nat,
    inbox: seq<nat>,
    queue: seq<nat>,
    maxSeq: int,
    sent: seq<nat>,
    unstored: set<nat>,
    dropped: set<nat>,
    readFailed: bool)

  datatype Step =
    | Emit(isOutcome: bool)
    | Store(written: bool)
    | MarkEnded
    | Subscribe
    | ReadStore(readable: bool)
    | CheckEnded
    | Deliver
    | Take
    | Disconnect

  const NEW_RUN: State := State([], false, [], false, Idle, 0, [], [], -1, [], {}, {}, false)

  function Listening(s: State): bool {
    s.phase.Subscribed? || s.phase.Replayed? || s.phase.Following?
  }

  /** The largest of `maxSeq` and the numbers replayed. */
  function LargestOf(seqs: seq<nat>, maxSeq: int): int {
    if seqs == [] then maxSeq else Max(LargestOf(seqs[..|seqs| - 1], maxSeq), seqs[|seqs| - 1])
  }

  function Next(s: State, step: Step, capacity: nat): State {
    match step
    case Emit(isOutcome) =>
      // the collector numbers the step; the sink publishes it before it stores it
      if s.storing then s
      else s.(kinds := s.kinds + [isOutcome], storing := true,
              inbox := if Listening(s) then s.inbox + [|s.kinds|] else s.inbox)
    case Store(written) =>
      if !s.storing || s.kinds == [] then s
      else if written then s.(storing := false, stored := s.stored + [|s.kinds| - 1])
      else s.(storing := false, unstored := s.unstored + {|s.kinds| - 1})
    case MarkEnded => if s.storing then s else s.(ended := true)
    case Subscribe => if s.phase.Idle? then s.(phase := Subscribed, joined := |s.kinds|) else s
    case ReadStore(readable) =>
      if !s.phase.Subscribed? then s
      else
        var replay := if readable then s.stored else [];
        s.(phase := Replayed, sent := s.sent + replay, maxSeq := LargestOf(replay, s.maxSeq), readFailed := !readable)
    case CheckEnded =>
      if !s.phase.Replayed? then s else s.(phase := if s.ended then Closed else Following)
    case Deliver =>
      if s.inbox == [] || !Listening(s) then s
      else if |s.queue| < capacity then s.(inbox := s.inbox[1..], queue := s.queue + [s.inbox[0]])
      else if s.queue == [] then s.(inbox := s.inbox[1..], dropped := s.dropped + {s.inbox[0]})
      else s.(inbox := s.inbox[1..], queue := s.queue[1..] + [s.inbox[0]], dropped := s.dropped + {s.queue[0]})
    case Take =>
      if !s.phase.Following? || s.queue == [] then s
      else
        var n := s.queue[0];
        if n <= s.maxSeq then s.(queue := s.queue[1..])
        else s.(queue := s.queue[1..], maxSeq := n, sent := s.sent + [n],
                phase := if n < |s.kinds| && s.kinds[n] then Closed else Following)
    case Disconnect => if Listening(s) then s.(phase := Closed) else s
  }

  function Run(steps: seq<Step>, capacity: nat): State {
    if steps == [] then NEW_RUN
    else Next(Run(steps[..|steps| - 1], capacity), steps[|steps| - 1], capacity)
  }

  // ---------------------------------------------------------------- invariants

  predicate Increasing(xs: seq<nat>) {
    forall i, j :: 0 <= i < j < |xs| ==> xs[i] < xs[j]
  }

  /** How many steps have been through the store, written or not. */
  function Settled(s: State): int {
    if s.storing then |s.kinds| - 1 else |s.kinds|
  }

  ghost predicate StoreKept(s: State) {
    && (s.storing ==> s.kinds != [])
    && Increasing(s.stored)
    && (forall m :: m in s.stored ==> m < Settled(s))
    && (forall m: nat :: m < Settled(s) ==> m in s.stored || m in s.unstored)
  }

  function Pipeline(s: State): seq<nat> {
    s.queue + s.inbox
  }

  /** A number that has left the pipeline, or never went through it. */
  predicate Passed(s: State, m: nat) {
    m !in Pipeline(s)
  }

  /** Why a number that was published to this subscriber may be missing from what was sent. */
  predicate Excused(s: State, m: nat) {
    m in s.sent || m in s.dropped || m in s.unstored || (s.readFailed && m < s.joined) || m + 1 == s.joined
  }

  ghost predicate PipelineKept(s: State) {
    && InFlight(Pipeline(s), s.joined, |s.kinds|)
    && s.joined <= |s.kinds|
    && (s.phase.Idle? ==> Pipeline(s) == [] && s.sent == [] && s.maxSeq == -1)
    && (s.phase.Subscribed? ==> s.sent == [] && s.maxSeq == -1 && s.joined - 1 <= Settled(s))
  }

  ghost predicate SentKept(s: State) {
    && Increasing(s.sent)
    && (s.sent == [] ==> s.maxSeq == -1)
    && (s.sent != [] ==> s.maxSeq == s.sent[|s.sent| - 1])
    && s.maxSeq < |s.kinds|
  }

  /** Whatever is at or below the largest number sent, or has left the pipeline, is sent or excused. */
  ghost predicate GapsExcused(s: State) {
    && (forall m: nat :: s.joined <= m < |s.kinds| && Listening(s) && Passed(s, m) ==> Excused(s, m))
    && (forall m: nat :: m <= s.maxSeq ==> Excused(s, m))
    && (s.phase.Replayed? || s.phase.Following? ==> forall m: nat :: m < s.joined ==> Excused(s, m))
  }

  ghost predicate Kept(s: State) {
    StoreKept(s) && PipelineKept(s) && SentKept(s) && GapsExcused(s)
  }

  lemma {:induction false} LargestIsLast(xs: seq<nat>)
    requires Increasing(xs)
    ensures LargestOf(xs, -1) == if xs == [] then -1 else xs[|xs| - 1]
  {
    if xs != [] {
      LargestIsLast(xs[..|xs| - 1]);
    }
  }

  /** Numbers in the pipeline: increasing, and published since the client joined. */
  ghost predicate InFlight(xs: seq<nat>, joined: nat, published: nat) {
    Increasing(xs) && forall m :: m in xs ==> joined <= m < published
  }

  lemma InFlightTail(xs: seq<nat>, joined: nat, published: nat)
    requires InFlight(xs, joined, published) && xs != []
    ensures InFlight(xs[1..], joined, published)
    ensures forall m :: m in xs <==> m == xs[0] || m in xs[1..]
    ensures forall m :: m in xs[1..] ==> m > xs[0]
  {
    assert xs == [xs[0]] + xs[1..];
    assert forall i :: 0 <= i < |xs[1..]| ==> xs[1..][i] == xs[i + 1];
    forall m | m in xs[1..] ensures joined <= m < published && m > xs[0] {
      assert m in xs;
    }
  }

  lemma InFlightAppend(xs: seq<nat>, joined: nat, published: nat)
    requires InFlight(xs, joined, published) && joined <= published
    ensures InFlight(xs + [published], joined, published + 1)
  {
    assert forall i :: 0 <= i < |xs| ==> xs[i] in xs;
  }

  /** Nothing that excuses a number is ever taken back. */
  lemma ExcusesLast(s: State, s': State, m: nat)
    requires Excused(s, m) && s'.joined == s.joined
    requires (forall x :: x in s.sent ==> x in s'.sent) && s.dropped <= s'.dropped && s.unstored <= s'.unstored
    requires s.readFailed ==> s'.readFailed
    ensures Excused(s', m)
  {
  }

  lemma EmitKeeps(s: State, isOutcome: bool, capacity: nat)
    requires Kept(s)
    ensures Kept(Next(s, Emit(isOutcome), capacity))
  {
    var s' := Next(s, Emit(isOutcome), capacity);
    if s' != s {
      InFlightAppend(Pipeline(s), s.joined, |s.kinds|);
      assert Pipeline(s') == if Listening(s) then Pipeline(s) + [|s.kinds|] else Pipeline(s);
      forall m: nat | s'.joined <= m < |s'.kinds| && Listening(s') && Passed(s', m) ensures Excused(s', m) {
        assert Passed(s, m) && m < |s.kinds|;
        ExcusesLast(s, s', m);
      }
      forall m: nat | Excused(s, m) ensures Excused(s', m) {
        ExcusesLast(s, s', m);
      }
    }
  }

  lemma StoreKeeps(s: State, written: bool, capacity: nat)
    requires Kept(s)
    ensures Kept(Next(s, Store(written), capacity))
  {
    var s' := Next(s, Store(written), capacity);
    if s' != s {
      if written {
        StoredOneMore(s.stored, |s.kinds| - 1);
      }
      SameStream(s, s');
    }
  }

  lemma StoredOneMore(stored: seq<nat>, n: nat)
    requires Increasing(stored) && forall m :: m in stored ==> m < n
    ensures Increasing(stored + [n]) && forall m :: m in stored + [n] <==> m in stored || m == n
  {
    assert forall i :: 0 <= i < |stored| ==> stored[i] in stored;
  }

  /** Changing only what the worker keeps leaves the stream's own invariants alone. */
  lemma SameStream(s: State, s': State)
    requires Kept(s) && StoreKept(s') && Settled(s') >= Settled(s) && s.unstored <= s'.unstored
    requires s' == s.(storing := s'.storing, stored := s'.stored, unstored := s'.unstored, ended := s'.ended)
    ensures Kept(s')
  {
    assert Pipeline(s') == Pipeline(s);
    forall m: nat | Excused(s, m) ensures Excused(s', m) {
    }
  }

  lemma ReadSends(s: State, readable: bool, capacity: nat)
    requires Kept(s) && s.phase.Subscribed?
    ensures SentKept(Next(s, ReadStore(readable), capacity))
  {
    var replay := if readable then s.stored else [];
    assert Next(s, ReadStore(readable), capacity).sent == replay;
    LargestIsLast(replay);
    assert replay != [] ==> replay[|replay| - 1] in s.stored;
  }

  lemma ReadKeeps(s: State, readable: bool, capacity: nat)
    requires Kept(s) && s.phase.Subscribed?
    ensures Kept(Next(s, ReadStore(readable), capacity))
  {
    assert Pipeline(Next(s, ReadStore(readable), capacity)) == Pipeline(s);
    ReadSends(s, readable, capacity);
    ReadExcuses(s, readable, capacity);
  }

  lemma ReadExcuses(s: State, readable: bool, capacity: nat)
    requires Kept(s) && s.phase.Subscribed? && Increasing(s.stored)
    ensures GapsExcused(Next(s, ReadStore(readable), capacity))
  {
    var s' := Next(s, ReadStore(readable), capacity);
    var replay := if readable then s.stored else [];
    assert s'.sent == replay && Pipeline(s') == Pipeline(s);
    LargestIsLast(replay);
    assert replay != [] ==> replay[|replay| - 1] in s.stored;
    forall m: nat | s'.joined <= m < |s'.kinds| && Listening(s') && Passed(s', m) ensures Excused(s', m) {
      assert Passed(s, m) && Excused(s, m);
      assert m !in s.sent && !(s.readFailed && m < s.joined) && m + 1 != s.joined;
    }
  }

  /** Moving numbers within the pipeline changes nothing. */
  lemma SamePipeline(s: State, s': State)
    requires Kept(s) && s' == s.(inbox := s'.inbox, queue := s'.queue) && Pipeline(s') == Pipeline(s)
    ensures Kept(s')
  {
    assert StoreKept(s') && PipelineKept(s') && SentKept(s');
    forall m: nat ensures (Passed(s', m) <==> Passed(s, m)) && (Excused(s', m) <==> Excused(s, m)) {
    }
  }

  /** There is room in the queue. */
  lemma DeliverQueues(s: State, capacity: nat)
    requires Kept(s) && s.inbox != [] && Listening(s) && |s.queue| < capacity
    ensures Kept(Next(s, Deliver, capacity))
  {
    var s' := Next(s, Deliver, capacity);
    assert Pipeline(s') == Pipeline(s);
    SamePipeline(s, s');
  }

  /** What leaves the pipeline by being dropped is excused by that. */
  lemma DroppedIsExcused(s: State, s': State, n: nat)
    requires GapsExcused(s) && n in s'.dropped && s.dropped <= s'.dropped
    requires s' == s.(inbox := s'.inbox, queue := s'.queue, dropped := s'.dropped)
    requires forall m :: m in Pipeline(s) ==> m == n || m in Pipeline(s')
    ensures GapsExcused(s')
  {
    forall m: nat | Excused(s, m) ensures Excused(s', m) {
      ExcusesLast(s, s', m);
    }
    forall m: nat | s'.joined <= m < |s'.kinds| && Listening(s') && Passed(s', m) ensures Excused(s', m) {
      assert Passed(s, m) || m == n;
    }
  }

  /** The queue is full: the step furthest ahead is dropped, and that is why it will be missing. */
  lemma DeliverDrops(s: State, capacity: nat)
    requires Kept(s) && s.inbox != [] && Listening(s) && |s.queue| >= capacity
    ensures Kept(Next(s, Deliver, capacity))
  {
    var s' := Next(s, Deliver, capacity);
    InFlightTail(Pipeline(s), s.joined, |s.kinds|);
    assert Pipeline(s') == Pipeline(s)[1..];
    assert Pipeline(s)[0] in s'.dropped;
    DroppedIsExcused(s, s', Pipeline(s)[0]);
  }

  lemma DeliverKeeps(s: State, capacity: nat)
    requires Kept(s) && s.inbox != [] && Listening(s)
    ensures Kept(Next(s, Deliver, capacity))
  {
    if |s.queue| < capacity {
      DeliverQueues(s, capacity);
    } else {
      DeliverDrops(s, capacity);
    }
  }

  lemma TakeKeeps(s: State, capacity: nat)
    requires Kept(s) && s.phase.Following? && s.queue != []
    ensures Kept(Next(s, Take, capacity))
  {
    var s' := Next(s, Take, capacity);
    InFlightTail(Pipeline(s), s.joined, |s.kinds|);
    assert Pipeline(s)[0] == s.queue[0] && Pipeline(s') == Pipeline(s)[1..];
    assert s.queue[0] in Pipeline(s);
    TakeSends(s, capacity);
    TakeExcuses(s, capacity);
  }

  lemma TakeSends(s: State, capacity: nat)
    requires SentKept(s) && s.phase.Following? && s.queue != [] && s.queue[0] < |s.kinds|
    ensures SentKept(Next(s, Take, capacity))
  {
  }

  lemma TakeExcuses(s: State, capacity: nat)
    requires Kept(s) && s.phase.Following? && s.queue != []
    ensures GapsExcused(Next(s, Take, capacity))
  {
    var s' := Next(s, Take, capacity);
    var n := s.queue[0];
    InFlightTail(Pipeline(s), s.joined, |s.kinds|);
    assert Pipeline(s)[0] == n && Pipeline(s') == Pipeline(s)[1..];
    assert Pipeline(s)[0] in Pipeline(s);
    assert n > s.maxSeq ==> n in s'.sent;
    forall m: nat | Excused(s, m) ensures Excused(s', m) {
      ExcusesLast(s, s', m);
    }
    forall m: nat | s'.joined <= m < |s'.kinds| && Passed(s', m) ensures Excused(s', m) {
      assert m == n || Passed(s, m);
    }
    forall m: nat | m <= s'.maxSeq ensures Excused(s', m) {
      assert m <= s.maxSeq || m < s.joined || m == n || Passed(s, m);
    }
  }

  /** Moving on to another phase after the replay changes nothing else. */
  lemma PhaseKeeps(s: State, phase: Phase)
    requires Kept(s) && Listening(s) && (phase.Closed? || (phase.Following? && s.phase.Replayed?))
    ensures Kept(s.(phase := phase))
  {
    var s' := s.(phase := phase);
    assert Pipeline(s') == Pipeline(s);
    forall m: nat | Excused(s, m) ensures Excused(s', m) {
    }
    forall m: nat | Passed(s', m) ensures Passed(s, m) {
    }
  }

  lemma SubscribeKeeps(s: State, capacity: nat)
    requires Kept(s) && s.phase.Idle?
    ensures Kept(Next(s, Subscribe, capacity))
  {
    var s' := Next(s, Subscribe, capacity);
    assert Pipeline(s') == [];
  }

  lemma StepKeeps(s: State, step: Step, capacity: nat)
    requires Kept(s)
    ensures Kept(Next(s, step, capacity))
  {
    match step
    case Emit(isOutcome) => EmitKeeps(s, isOutcome, capacity);
    case Store(written) => StoreKeeps(s, written, capacity);
    case MarkEnded => SameStream(s, Next(s, step, capacity));
    case Subscribe =>
      if s.phase.Idle? {
        SubscribeKeeps(s, capacity);
      }
    case ReadStore(readable) =>
      if s.phase.Subscribed? {
        ReadKeeps(s, readable, capacity);
      }
    case CheckEnded =>
      if s.phase.Replayed? {
        PhaseKeeps(s, if s.ended then Closed else Following);
      }
    case Deliver =>
      if s.inbox != [] && Listening(s) {
        DeliverKeeps(s, capacity);
      }
    case Take =>
      if s.phase.Following? && s.queue != [] {
        TakeKeeps(s, capacity);
      }
    case Disconnect =>
      if Listening(s) {
        PhaseKeeps(s, Closed);
      }
  }

  lemma {:induction false} RunKeeps(steps: seq<Step>, capacity: nat)
    ensures Kept(Run(steps, capacity))
  {
    if steps != [] {
      RunKeeps(steps[..|steps| - 1], capacity);
      StepKeeps(Run(steps[..|steps| - 1], capacity), steps[|steps| - 1], capacity);
    }
  }

  // ---------------------------------------------------------------- what a client sees

  /** Under every interleaving, and whatever fails, the numbers sent to a client strictly increase. */
  lemma SentStrictlyIncreases(steps: seq<Step>, capacity: nat)
    ensures Increasing(Run(steps, capacity).sent)
    ensures forall m :: m in Run(steps, capacity).sent ==> m < |Run(steps, capacity).kinds|
  {
    RunKeeps(steps, capacity);
    SentArePublished(Run(steps, capacity));
  }

  lemma SentArePublished(s: State)
    requires SentKept(s)
    ensures forall m :: m in s.sent ==> m <= s.maxSeq
  {
    forall m | m in s.sent ensures m <= s.maxSeq {
      var i :| 0 <= i < |s.sent| && s.sent[i] == m;
    }
  }

  /**
   A number missing below one that was sent was dropped from a full queue, was never stored, preceded a
   store that could not be read, or is the one step that was published but not yet stored on joining.
   */
  lemma EveryGapHasAReason(steps: seq<Step>, capacity: nat, largest: nat, m: nat)
    requires largest in Run(steps, capacity).sent && m < largest
    ensures
      var s := Run(steps, capacity);
      m in s.sent || m in s.dropped || m in s.unstored || (s.readFailed && m < s.joined) || m + 1 == s.joined
  {
    RunKeeps(steps, capacity);
    SentArePublished(Run(steps, capacity));
    assert Excused(Run(steps, capacity), m);
  }

  // ---------------------------------------------------------------- which numbers a full queue drops

  /** The number this step hands to the client's queue, if it does. */
  function Arriving(s: State, step: Step): seq<nat> {
    if step.Deliver? && s.inbox != [] && Listening(s) then [s.inbox[0]] else []
  }

  /** The numbers that have come to the client's queue, in order. */
  function Delivered(steps: seq<Step>, capacity: nat): seq<nat> {
    if steps == [] then []
    else
      var front, last := steps[..|steps| - 1], steps[|steps| - 1];
      Delivered(front, capacity) + Arriving(Run(front, capacity), last)
  }

  /** `xs` counts up from `first`. */
  ghost predicate CountsFrom(xs: seq<nat>, first: int) {
    forall i :: 0 <= i < |xs| ==> xs[i] == first + i
  }

  /** `n` numbers came, without a gap; the queue holds the newest of them, and those dropped were outnumbered. */
  ghost predicate QueueKept(s: State, n: nat, capacity: nat) {
    && CountsFrom(s.inbox, s.joined + n)
    && CountsFrom(s.queue, s.joined + n - |s.queue|) && |s.queue| <= capacity && |s.queue| <= n
    && (Listening(s) ==> s.joined + n + |s.inbox| == |s.kinds|)
    && (s.phase.Idle? ==> n == 0 && s.inbox == [] && s.queue == [] && s.dropped == {})
    && forall m :: m in s.dropped ==> s.joined <= m && m + capacity < s.joined + n
  }

  lemma DeliveryKeepsQueue(s: State, n: nat, capacity: nat)
    requires QueueKept(s, n, capacity) && s.inbox != [] && Listening(s)
    ensures QueueKept(Next(s, Deliver, capacity), n + 1, capacity)
  {
  }

  lemma EmitKeepsQueue(s: State, isOutcome: bool, n: nat, capacity: nat)
    requires QueueKept(s, n, capacity)
    ensures QueueKept(Next(s, Emit(isOutcome), capacity), n, capacity)
  {
  }

  lemma TakeKeepsQueue(s: State, n: nat, capacity: nat)
    requires QueueKept(s, n, capacity)
    ensures QueueKept(Next(s, Take, capacity), n, capacity)
  {
  }

  lemma OthersKeepQueue(s: State, step: Step, n: nat, capacity: nat)
    requires QueueKept(s, n, capacity) && !step.Deliver?
    ensures QueueKept(Next(s, step, capacity), n, capacity)
  {
    match step
    case Emit(isOutcome) => EmitKeepsQueue(s, isOutcome, n, capacity);
    case Take => TakeKeepsQueue(s, n, capacity);
    case Store(_) =>
    case MarkEnded =>
    case Subscribe =>
    case ReadStore(_) =>
    case CheckEnded =>
    case Disconnect =>
  }

  lemma JoinsOnce(s: State, step: Step, capacity: nat)
    requires !s.phase.Idle?
    ensures !Next(s, step, capacity).phase.Idle? && Next(s, step, capacity).joined == s.joined
  {
  }

  ghost predicate StreamKept(s: State, delivered: seq<nat>, capacity: nat) {
    QueueKept(s, |delivered|, capacity) && (s.phase.Idle? || CountsFrom(delivered, s.joined))
  }

  lemma DeliveryKeepsStream(s: State, delivered: seq<nat>, capacity: nat)
    requires StreamKept(s, delivered, capacity) && s.inbox != [] && Listening(s)
    ensures StreamKept(Next(s, Deliver, capacity), delivered + [s.inbox[0]], capacity)
  {
    DeliveryKeepsQueue(s, |delivered|, capacity);
    JoinsOnce(s, Deliver, capacity);
  }

  lemma OthersKeepStream(s: State, step: Step, delivered: seq<nat>, capacity: nat)
    requires StreamKept(s, delivered, capacity) && !step.Deliver?
    ensures StreamKept(Next(s, step, capacity), delivered, capacity)
  {
    OthersKeepQueue(s, step, |delivered|, capacity);
    if s.phase.Idle? {
      assert delivered == [];
    } else {
      JoinsOnce(s, step, capacity);
    }
  }

  lemma StepKeepsStream(s: State, step: Step, delivered: seq<nat>, capacity: nat)
    requires StreamKept(s, delivered, capacity)
    ensures StreamKept(Next(s, step, capacity), delivered + Arriving(s, step), capacity)
  {
    if Arriving(s, step) != [] {
      DeliveryKeepsStream(s, delivered, capacity);
    } else {
      assert delivered + Arriving(s, step) == delivered;
      if !step.Deliver? {
        OthersKeepStream(s, step, delivered, capacity);
      }
    }
  }

  /** The numbers that come are those published since the client joined, in order and without a gap. */
  lemma {:induction false} RunKeepsStream(steps: seq<Step>, capacity: nat)
    ensures StreamKept(Run(steps, capacity), Delivered(steps, capacity), capacity)
  {
    if steps != [] {
      var last := |steps| - 1;
      RunKeepsStream(steps[..last], capacity);
      StepKeepsStream(Run(steps[..last], capacity), steps[last], Delivered(steps[..last], capacity), capacity);
    }
  }

  /** A number is dropped only when at least `capacity` later ones came: the newest `capacity` never are. */
  lemma NewestAreNeverDropped(steps: seq<Step>, capacity: nat)
    ensures Increasing(Delivered(steps, capacity))
    ensures forall m :: m in Run(steps, capacity).dropped ==>
      exists i: nat :: i + capacity < |Delivered(steps, capacity)| && Delivered(steps, capacity)[i] == m
    ensures forall i: nat :: |Delivered(steps, capacity)| - capacity <= i < |Delivered(steps, capacity)| ==>
      Delivered(steps, capacity)[i] !in Run(steps, capacity).dropped
  {
    RunKeepsStream(steps, capacity);
    var s, delivered := Run(steps, capacity), Delivered(steps, capacity);
    forall m | m in s.dropped ensures exists i: nat :: i + capacity < |delivered| && delivered[i] == m {
      var i: nat := m - s.joined;
      assert delivered[i] == m;
    }
  }

  /** The store worked and no queue overflowed. */
  ghost predicate Undamaged(s: State) {
    s.dropped == {} && s.unstored == {} && !s.readFailed
  }

  /** With a working store and no overflow, at most one number is missing below one that was sent. */
  lemma AtMostOneGap(steps: seq<Step>, capacity: nat, largest: nat, m: nat, n: nat)
    requires largest in Run(steps, capacity).sent && m < n < largest && Undamaged(Run(steps, capacity))
    ensures m in Run(steps, capacity).sent || n in Run(steps, capacity).sent
  {
    EveryGapHasAReason(steps, capacity, largest, m);
    EveryGapHasAReason(steps, capacity, largest, n);
  }

  /** Nothing newer than what was sent waits for this client. */
  predicate NothingWaiting(s: State) {
    forall m :: m in Pipeline(s) ==> m <= s.maxSeq
  }

  /** Everything published so far was sent. */
  ghost predicate WholeRunSent(s: State) {
    forall m: nat :: m < |s.kinds| ==> m in s.sent
  }

  /** The last step published before the client subscribed was in the store when the client read it. */
  predicate JoinedStepSent(s: State) {
    s.joined > 0 ==> s.joined - 1 in s.sent
  }

  lemma WholeIfNothingWaits(s: State)
    requires GapsExcused(s) && s.phase.Replayed? && Undamaged(s) && NothingWaiting(s) && JoinedStepSent(s)
    ensures WholeRunSent(s)
  {
    forall m: nat | m < |s.kinds| ensures m in s.sent {
      assert Passed(s, m) || m <= s.maxSeq || m < s.joined;
      assert Excused(s, m);
    }
  }

  lemma NothingWaitsIfWhole(s: State)
    requires SentKept(s) && InFlight(Pipeline(s), s.joined, |s.kinds|) && s.joined <= |s.kinds| && WholeRunSent(s)
    ensures NothingWaiting(s) && JoinedStepSent(s)
  {
    SentArePublished(s);
    forall m | m in Pipeline(s) ensures m <= s.maxSeq {
      assert m in s.sent;
    }
  }

  /**
   A stream may close on finding the run ended before it looks at its queue. With a working store and no
   overflow the client then has the whole run exactly if nothing newer is waiting in the queue or on its way
   there, and the last step published before it subscribed was stored when it read.
   */
  lemma EndedStreamIsWholeIffNothingWaits(steps: seq<Step>, capacity: nat)
    requires Run(steps, capacity).phase.Replayed? && Run(steps, capacity).ended && Undamaged(Run(steps, capacity))
    ensures
      var s := Run(steps, capacity);
      && Next(s, CheckEnded, capacity) == s.(phase := Closed)
      && (WholeRunSent(s) <==> NothingWaiting(s) && JoinedStepSent(s))
  {
    RunKeeps(steps, capacity);
    var s := Run(steps, capacity);
    if NothingWaiting(s) && JoinedStepSent(s) {
      WholeIfNothingWaits(s);
    }
    if WholeRunSent(s) {
      NothingWaitsIfWhole(s);
    }
  }

  lemma RunAppend(steps: seq<Step>, step: Step, capacity: nat)
    ensures Run(steps + [step], capacity) == Next(Run(steps, capacity), step, capacity)
  {
    assert (steps + [step])[..|steps|] == steps;
  }

  /** A client that has read the store was sent all of it, and since then only what was numbered after it joined. */
  ghost predicate ReadOnce(p: State, s: State) {
    && !s.phase.Idle? && !s.phase.Subscribed?
    && s.joined == p.joined && p.stored <= s.sent
    && forall n :: n in s.sent[|p.stored|..] ==> p.joined <= n
  }

  lemma FirstRead(p: State, capacity: nat)
    requires Kept(p) && p.phase.Subscribed?
    ensures ReadOnce(p, Next(p, ReadStore(true), capacity))
  {
    assert Next(p, ReadStore(true), capacity).sent == p.stored;
  }

  lemma ReadOnceKept(p: State, s: State, step: Step, capacity: nat)
    requires ReadOnce(p, s) && Kept(s)
    ensures ReadOnce(p, Next(s, step, capacity))
  {
    LaterSendsAreLate(s, step, capacity);
    SuffixMembers(p.stored, s.sent, Next(s, step, capacity).sent, p.joined);
  }

  lemma LastApart<T>(a: seq<T>, b: seq<T>)
    requires b != []
    ensures a + b == (a + b[..|b| - 1]) + [b[|b| - 1]]
  {
  }

  lemma {:induction false} SentSinceRead(pre: seq<Step>, rest: seq<Step>, capacity: nat)
    requires Run(pre, capacity).phase.Subscribed?
    ensures ReadOnce(Run(pre, capacity), Run(pre + [ReadStore(true)] + rest, capacity))
  {
    var read := pre + [ReadStore(true)];
    if rest == [] {
      RunKeeps(pre, capacity);
      RunAppend(pre, ReadStore(true), capacity);
      FirstRead(Run(pre, capacity), capacity);
      assert read + rest == read;
    } else {
      var last := |rest| - 1;
      SentSinceRead(pre, rest[..last], capacity);
      LastApart(read, rest);
      RunAppend(read + rest[..last], rest[last], capacity);
      RunKeeps(read + rest[..last], capacity);
      ReadOnceKept(Run(pre, capacity), Run(read + rest[..last], capacity), rest[last], capacity);
    }
  }

  lemma LaterSendsAreLate(s: State, step: Step, capacity: nat)
    requires Kept(s) && !s.phase.Idle? && !s.phase.Subscribed?
    ensures
      var s' := Next(s, step, capacity);
      && !s'.phase.Idle? && !s'.phase.Subscribed? && s'.joined == s.joined
      && (s'.sent == s.sent || exists n :: s.joined <= n && s'.sent == s.sent + [n])
  {
    if step.Take? && s.phase.Following? && s.queue != [] {
      assert s.queue[0] in Pipeline(s);
    }
  }

  lemma SuffixMembers(first: seq<nat>, sent: seq<nat>, sent': seq<nat>, joined: nat)
    requires first <= sent && (sent' == sent || exists n :: joined <= n && sent' == sent + [n])
    requires forall n :: n in sent[|first|..] ==> joined <= n
    ensures first <= sent' && forall n :: n in sent'[|first|..] ==> joined <= n
  {
    if sent' != sent {
      var n :| joined <= n && sent' == sent + [n];
      assert sent'[|first|..] == sent[|first|..] + [n];
    }
  }

  lemma OnlyTheJoinedStep(p: State, s: State, m: nat)
    requires ReadOnce(p, s) && (m in s.sent || m + 1 == s.joined)
    ensures m !in s.sent <==> m + 1 == p.joined && m !in p.stored
  {
    assert s.sent == p.stored + s.sent[|p.stored|..];
  }

  /**
   When exactly a step is missed. A client has subscribed after `pre` and next reads the store; the store
   works and no queue overflows. Below any number it is ever sent, the one number it misses is that of
   the last step published before it subscribed, and it misses it exactly if that step was not yet stored
   when it read.
   */
  lemma MissedIffNotYetStored(pre: seq<Step>, rest: seq<Step>, capacity: nat, largest: nat, m: nat)
    requires Run(pre, capacity).phase.Subscribed?
    requires Undamaged(Run(pre + [ReadStore(true)] + rest, capacity))
    requires largest in Run(pre + [ReadStore(true)] + rest, capacity).sent && m < largest
    ensures m !in Run(pre + [ReadStore(true)] + rest, capacity).sent <==>
      m + 1 == Run(pre, capacity).joined && m !in Run(pre, capacity).stored
  {
    SentSinceRead(pre, rest, capacity);
    EveryGapHasAReason(pre + [ReadStore(true)] + rest, capacity, largest, m);
    OnlyTheJoinedStep(Run(pre, capacity), Run(pre + [ReadStore(true)] + rest, capacity), m);
  }

  /** Joins between publishing and storing, and reads in between. */
  const UNLUCKY_CLIENT: seq<Step> :=
    [Emit(false), Subscribe, ReadStore(true), Store(true), CheckEnded, Emit(true), Deliver, Take]

  lemma RunUpTo(steps: seq<Step>, k: nat, capacity: nat)
    requires k < |steps|
    ensures Run(steps[..k + 1], capacity) == Next(Run(steps[..k], capacity), steps[k], capacity)
  {
    assert steps[..k + 1][..k] == steps[..k];
  }

  /** The gap is real: that client is sent step 1 and never step 0. */
  lemma GapCanHappen(capacity: nat)
    requires capacity > 0
    ensures Run(UNLUCKY_CLIENT, capacity).sent == [1] && Undamaged(Run(UNLUCKY_CLIENT, capacity))
  {
    var todo := UNLUCKY_CLIENT;
    assert todo[..0] == [];
    RunUpTo(todo, 0, capacity);
    RunUpTo(todo, 1, capacity);
    RunUpTo(todo, 2, capacity);
    assert Run(todo[..3], capacity) == NEW_RUN.(kinds := [false], storing := true, phase := Replayed, joined := 1);
    RunUpTo(todo, 3, capacity);
    RunUpTo(todo, 4, capacity);
    assert Run(todo[..5], capacity) == NEW_RUN.(kinds := [false], stored := [0], phase := Following, joined := 1);
    RunUpTo(todo, 5, capacity);
    RunUpTo(todo, 6, capacity);
    assert Run(todo[..7], capacity) == NEW_RUN.(kinds := [false, true], storing := true, stored := [0],
                                                phase := Following, joined := 1, queue := [1]);
    RunUpTo(todo, 7, capacity);
    assert todo[..8] == todo;
  }

  /** Reads, then is overtaken by the whole run, and finds the run ended. */
  const LATE_CLIENT: seq<Step> := [Subscribe, ReadStore(true), Emit(true), Store(true), MarkEnded]

  /** So is the cut: that client's stream closes on the ended check with the outcome still on its way. */
  lemma CutCanHappen(capacity: nat)
    ensures
      var s := Run(LATE_CLIENT, capacity);
      s.phase.Replayed? && s.ended && Undamaged(s) && !WholeRunSent(s) && !NothingWaiting(s)
  {
    var todo := LATE_CLIENT;
    assert todo[..0] == [];
    RunUpTo(todo, 0, capacity);
    RunUpTo(todo, 1, capacity);
    assert Run(todo[..2], capacity) == NEW_RUN.(phase := Replayed);
    RunUpTo(todo, 2, capacity);
    RunUpTo(todo, 3, capacity);
    assert Run(todo[..4], capacity) == NEW_RUN.(kinds := [true], stored := [0], phase := Replayed, inbox := [0]);
    RunUpTo(todo, 4, capacity);
    assert todo[..5] == todo;
    assert Run(todo, capacity).inbox == [0] && [0][0] in [0];
    CutShort(Run(todo, capacity), 0);
  }

  /** An unsent step on its way to the client is a step missing if the stream closes now. */
  lemma CutShort(s: State, n: nat)
    requires n in s.inbox && n !in s.sent && s.maxSeq < n < |s.kinds|
    ensures !WholeRunSent(s) && !NothingWaiting(s)
  {
    assert n in Pipeline(s);
  }
}
