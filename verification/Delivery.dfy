/**
 The bus consumer, the envelope iterator and the action handler as one step machine.

 `RedisBus.consume`, `iter_models` and the action service's `run_consumer` run as three nested
 loops in one thread. A consumer thread is here a program counter (`At`) plus the locals of
 `consume`. Every call that leaves the process is one step, and each may go wrong in two ways:
 the request never reaches the server, or the server acts and the reply is lost. Either way the
 thread is back at the top of `consume` with `group_ready` false and the pending entries to be
 drained: the `except` branch of `consume` does that for a lost connection, and a restart after
 an exception in the handler, a stop or a dead process does the same.

 Any number of consumers take part, each under its own stable name, all sharing one guard store.
 Stream entries are named by their position: ids only grow and nothing is trimmed.
*/
module Delivery {
  import opened Prelude

  /** One occurrence of an incident: the execution claim is keyed on both parts. */
  datatype Occurrence = Occurrence(situationId: string, firstSeen: int)

  /** A message: its envelope id (absent on old messages) and its decoded body (None: undecodable). */
  datatype Entry = Entry(eventId: Option<string>, body: Option<Occurrence>)

  datatype GuardKey = EventKey(eventId: string) | ExecKey(occurrence: Occurrence)

  /** Values stored under a guard key: "1", "in_progress", "done". */
  datatype Mark = Claimed | InProgress | Done

  datatype Config = Config(atLeastOnce: bool, dlqOn: bool, maxAttempts: nat)

  datatype OutcomeKind = Ran | Escalated | Interrupted

  datatype Announcement = Announcement(occurrence: Occurrence, kind: OutcomeKind)

  /** What the Redis server holds for the topic, the group and the guard. */
  datatype Server = Server(
    stream: seq<Entry>,
    groupExists: bool,
    delivered: nat,
    pending: map<nat, nat>,
    attempts: map<nat, nat>,
    marks: map<GuardKey, Mark>)

  /** What has happened so far; nothing here is ever taken back. */
  datatype History = History(
    acked: set<nat>,
    parked: set<nat>,
    finished: set<nat>,
    yielded: seq<(nat, nat)>,
    started: seq<Occurrence>,
    outcomes: seq<Announcement>)

  /** The call a consumer thread is about to make. */
  datatype At =
    | Top
    | AckFirst
    | CountAttempt
    | ExpireCount(attempts: nat)
    | Park
    | ParkAck
    | ParkForget
    | Yield
    | ParkUndecodable
    | ClaimEvent
    | ReadEvent
    | ClaimExec
    | ReadExec
    | MarkRunning
    | Remediate
    | PublishOutcome(kind: OutcomeKind)
    | MarkExecDone
    | Resume
    | MarkEventDone
    | Ack
    | Forget

  /** A consumer thread: program counter and the locals of `consume`; `batch[0]` is in hand. */
  datatype Client = Client(at: At, groupReady: bool, drained: bool, batch: seq<nat>)

  datatype State = State(server: Server, history: History, clients: map<nat, Client>)

  datatype Fault = Fine | RequestLost | ReplyLost

  datatype Step =
    | Produce(entry: Entry)
    | Act(consumer: nat, fault: Fault, playbookFound: bool)

  const DRAIN_BATCH: nat := 100

  // ---------------------------------------------------------------- the machine

  function Restarted(cfg: Config): Client {
    Client(Top, false, !cfg.atLeastOnce, [])
  }

  function ClientOf(cfg: Config, s: State, c: nat): Client {
    if c in s.clients then s.clients[c] else Restarted(cfg)
  }

  function Attempts(server: Server, e: nat): nat {
    if e in server.attempts then server.attempts[e] else 0
  }

  /** The first `n` stream positions that are pending for consumer `c`, in id order. */
  function PendingOf(pending: map<nat, nat>, c: nat, n: nat): seq<nat> {
    if n == 0 then []
    else PendingOf(pending, c, n - 1) + if n - 1 in pending && pending[n - 1] == c then [n - 1] else []
  }

  function FirstBatch(entries: seq<nat>): seq<nat> {
    if |entries| <= DRAIN_BATCH then entries else entries[..DRAIN_BATCH]
  }

  /** Take up the head of the batch, or go back to reading when it is used up. */
  function TakeUp(cfg: Config, cl: Client): Client {
    if cl.batch == [] then cl.(at := Top)
    else cl.(at := if !cfg.atLeastOnce then AckFirst else if cfg.dlqOn then CountAttempt else Yield)
  }

  function NextEntry(cfg: Config, cl: Client): Client
    requires cl.batch != []
  {
    TakeUp(cfg, cl.(batch := cl.batch[1..]))
  }

  /** The generator is resumed: under at_least_once the entry is acked now. */
  function BackToBus(cfg: Config): Move {
    if cfg.atLeastOnce then Goto(Ack) else Finish
  }

  /** The entries in hand have been delivered, and the thread knows what its position implies. */
  ghost predicate InHand(server: Server, cl: Client) {
    && (cl.at.Top? <==> cl.batch == [])
    && Delivered(server.delivered, cl.batch)
    && (cl.batch != [] ==> Placed(server.stream, cl.at, cl.batch[0]))
  }

  ghost predicate Delivered(delivered: nat, batch: seq<nat>) {
    forall e :: e in batch ==> e < delivered
  }

  predicate Placed(stream: seq<Entry>, at: At, e: nat) {
    && e < |stream|
    && (InHandler(at) ==> stream[e].body.Some?)
    && (at.ClaimEvent? || at.ReadEvent? || at.MarkEventDone? ==> stream[e].eventId.Some?)
  }

  predicate InHandler(at: At) {
    at.ClaimEvent? || at.ReadEvent? || at.ClaimExec? || at.ReadExec? || at.MarkRunning? ||
    at.Remediate? || at.PublishOutcome? || at.MarkExecDone? || at.Resume? || at.MarkEventDone?
  }

  function Claim(marks: map<GuardKey, Mark>, key: GuardKey): map<GuardKey, Mark> {
    if key in marks then marks else marks[key := Claimed]
  }

  predicate IsDone(server: Server, key: GuardKey) {
    key in server.marks && server.marks[key] == Done
  }

  function OccurrenceOf(server: Server, cl: Client): Occurrence
    requires InHand(server, cl) && InHandler(cl.at)
  {
    server.stream[cl.batch[0]].body.value
  }

  function ExecKeyOf(server: Server, cl: Client): GuardKey
    requires InHand(server, cl) && InHandler(cl.at)
  {
    ExecKey(OccurrenceOf(server, cl))
  }

  function EventKeyOf(server: Server, cl: Client): GuardKey
    requires InHand(server, cl) && (cl.at.ClaimEvent? || cl.at.ReadEvent? || cl.at.MarkEventDone?)
  {
    EventKey(server.stream[cl.batch[0]].eventId.value)
  }

  function AckEffect(server: Server, h: History, e: nat): (Server, History) {
    (server.(pending := server.pending - {e}), h.(acked := h.acked + {e}))
  }

  /** What a call of the bus does: reading, acking, counting deliveries, parking. */
  function BusEffect(server: Server, h: History, c: nat, cl: Client): (Server, History)
    requires InHand(server, cl) && !InHandler(cl.at)
  {
    match cl.at
    case Top =>
      if !cl.groupReady then (server.(groupExists := true), h)
      else if cl.drained && server.delivered < |server.stream| then
        (server.(pending := server.pending[server.delivered := c], delivered := server.delivered + 1), h)
      else (server, h)
    case AckFirst => AckEffect(server, h, cl.batch[0])
    case ParkAck => AckEffect(server, h, cl.batch[0])
    case Ack => AckEffect(server, h, cl.batch[0])
    case CountAttempt =>
      var e := cl.batch[0];
      (server.(attempts := server.attempts[e := Attempts(server, e) + 1]), h)
    case ExpireCount(_) => (server, h)
    case Park => (server, h.(parked := h.parked + {cl.batch[0]}))
    case ParkUndecodable => (server, h.(parked := h.parked + {cl.batch[0]}))
    case ParkForget => (server.(attempts := server.attempts - {cl.batch[0]}), h)
    case Forget => (server.(attempts := server.attempts - {cl.batch[0]}), h)
    case Yield => (server, h.(yielded := h.yielded + [(c, cl.batch[0])]))
  }

  /** What a call of the envelope or of the handler does to the guard. */
  function MarksAfter(server: Server, cl: Client): map<GuardKey, Mark>
    requires InHand(server, cl) && InHandler(cl.at)
  {
    match cl.at
    case ClaimEvent => Claim(server.marks, EventKeyOf(server, cl))
    case ClaimExec => Claim(server.marks, ExecKeyOf(server, cl))
    case MarkRunning => server.marks[ExecKeyOf(server, cl) := InProgress]
    case MarkExecDone => server.marks[ExecKeyOf(server, cl) := Done]
    case MarkEventDone => server.marks[EventKeyOf(server, cl) := Done]
    case _ => server.marks
  }

  /** What it adds to the record of events. */
  function HandlerRecord(server: Server, h: History, cl: Client, playbookFound: bool): History
    requires InHand(server, cl) && InHandler(cl.at)
  {
    match cl.at
    case Remediate => if playbookFound then h.(started := h.started + [OccurrenceOf(server, cl)]) else h
    case PublishOutcome(kind) => h.(outcomes := h.outcomes + [Announcement(OccurrenceOf(server, cl), kind)])
    case Resume => h.(finished := h.finished + {cl.batch[0]})
    case _ => h
  }

  /** What the call at `cl.at` does to the server and to the record of events. */
  function Effect(server: Server, h: History, c: nat, cl: Client, playbookFound: bool): (Server, History)
    requires InHand(server, cl)
  {
    if InHandler(cl.at) then (server.(marks := MarksAfter(server, cl)), HandlerRecord(server, h, cl, playbookFound))
    else BusEffect(server, h, c, cl)
  }

  /** What the thread does with a reply about the entry in hand. */
  datatype Move = Goto(at: At) | Finish | Raise

  function MoveOf(cfg: Config, server: Server, cl: Client, playbookFound: bool): Move
    requires InHand(server, cl) && !cl.at.Top?
  {
    match cl.at
    case AckFirst => Goto(Yield)
    case CountAttempt => Goto(ExpireCount(Attempts(server, cl.batch[0]) + 1))
    case ExpireCount(n) => Goto(if n > cfg.maxAttempts then Park else Yield)
    case Park => Goto(ParkAck)
    case ParkAck => Goto(ParkForget)
    case ParkForget => Finish
    case Yield =>
      if server.stream[cl.batch[0]].body.None? then
        if cfg.dlqOn then Goto(ParkUndecodable) else Raise
      else Goto(if server.stream[cl.batch[0]].eventId.Some? then ClaimEvent else ClaimExec)
    case ParkUndecodable => BackToBus(cfg)
    case ClaimEvent => Goto(if EventKeyOf(server, cl) in server.marks then ReadEvent else ClaimExec)
    case ReadEvent => if IsDone(server, EventKeyOf(server, cl)) then BackToBus(cfg) else Goto(ClaimExec)
    case ClaimExec => Goto(if ExecKeyOf(server, cl) in server.marks then ReadExec else MarkRunning)
    case ReadExec => Goto(if IsDone(server, ExecKeyOf(server, cl)) then Resume else PublishOutcome(Interrupted))
    case MarkRunning => Goto(Remediate)
    case Remediate => Goto(PublishOutcome(if playbookFound then Ran else Escalated))
    case PublishOutcome(_) => Goto(MarkExecDone)
    case MarkExecDone => Goto(Resume)
    case Resume => if server.stream[cl.batch[0]].eventId.Some? then Goto(MarkEventDone) else BackToBus(cfg)
    case MarkEventDone => BackToBus(cfg)
    case Ack => if cfg.dlqOn then Goto(Forget) else Finish
    case Forget => Finish
  }

  /** Where the thread stands once the reply has arrived; `server` is the server before the call. */
  function Advance(cfg: Config, server: Server, c: nat, cl: Client, playbookFound: bool): Client
    requires InHand(server, cl)
  {
    if cl.at.Top? then
      if !cl.groupReady then cl.(groupReady := true)
      else if !cl.drained then
        TakeUp(cfg, cl.(drained := true, batch := FirstBatch(PendingOf(server.pending, c, server.delivered))))
      else
        TakeUp(cfg, cl.(batch := if server.delivered < |server.stream| then [server.delivered] else []))
    else
      match MoveOf(cfg, server, cl, playbookFound)
      case Goto(at) => cl.(at := at)
      case Finish => NextEntry(cfg, cl)
      case Raise => Restarted(cfg)
  }

  /** Envelope ids are unique: two entries with the same id are copies of one message. */
  predicate MayProduce(stream: seq<Entry>, entry: Entry) {
    forall i :: 0 <= i < |stream| && stream[i].eventId.Some? && stream[i].eventId == entry.eventId ==>
      stream[i].body == entry.body
  }

  function Next(cfg: Config, s: State, step: Step): State
    requires step.Act? ==> InHand(s.server, ClientOf(cfg, s, step.consumer))
  {
    match step
    case Produce(entry) =>
      if MayProduce(s.server.stream, entry) then
        s.(server := s.server.(stream := s.server.stream + [entry]))
      else s
    case Act(c, fault, playbookFound) =>
      var cl := ClientOf(cfg, s, c);
      var (server', h') :=
        if fault.RequestLost? then (s.server, s.history) else Effect(s.server, s.history, c, cl, playbookFound);
      var cl' := if fault.Fine? then Advance(cfg, s.server, c, cl, playbookFound) else Restarted(cfg);
      State(server', h', s.clients[c := cl'])
  }

  function Initial(): State {
    State(Server([], false, 0, map[], map[], map[]), History({}, {}, {}, [], [], []), map[])
  }

  // ---------------------------------------------------------------- shape

  ghost predicate Shaped(cfg: Config, s: State) {
    && s.server.delivered <= |s.server.stream|
    && (forall c: nat :: InHand(s.server, ClientOf(cfg, s, c)))
  }

  lemma PendingOfMembers(pending: map<nat, nat>, c: nat, n: nat)
    ensures forall e :: e in PendingOf(pending, c, n) <==> e < n && e in pending && pending[e] == c
    ensures forall e :: e in FirstBatch(PendingOf(pending, c, n)) ==> e in PendingOf(pending, c, n)
  {
  }

  lemma EffectGrows(server: Server, h: History, c: nat, cl: Client, playbookFound: bool)
    requires InHand(server, cl) && server.delivered <= |server.stream|
    ensures
      var server' := Effect(server, h, c, cl, playbookFound).0;
      && server'.stream == server.stream
      && server.delivered <= server'.delivered <= |server.stream|
      && server.marks.Keys <= server'.marks.Keys
  {
  }

  lemma ReadInHand(cfg: Config, server: Server, h: History, c: nat, cl: Client, playbookFound: bool)
    requires InHand(server, cl) && server.delivered <= |server.stream| && cl.at.Top?
    ensures InHand(Effect(server, h, c, cl, playbookFound).0, Advance(cfg, server, c, cl, playbookFound))
  {
    PendingOfMembers(server.pending, c, server.delivered);
    var cl' := Advance(cfg, server, c, cl, playbookFound);
    var server' := Effect(server, h, c, cl, playbookFound).0;
    assert forall e :: e in cl'.batch ==> e < server'.delivered;
    assert cl'.batch != [] ==> cl'.batch[0] in cl'.batch;
  }

  lemma NextEntryInHand(cfg: Config, server: Server, cl: Client)
    requires InHand(server, cl) && server.delivered <= |server.stream| && cl.batch != []
    ensures InHand(server, NextEntry(cfg, cl))
  {
    var rest := cl.batch[1..];
    assert forall e :: e in rest ==> e in cl.batch;
    assert rest != [] ==> rest[0] in cl.batch;
  }

  lemma MovePlaced(cfg: Config, server: Server, cl: Client, playbookFound: bool)
    requires InHand(server, cl) && !cl.at.Top?
    ensures
      var move := MoveOf(cfg, server, cl, playbookFound);
      move.Goto? ==> !move.at.Top? && Placed(server.stream, move.at, cl.batch[0])
  {
  }

  lemma AdvanceInHand(cfg: Config, server: Server, c: nat, cl: Client, playbookFound: bool)
    requires InHand(server, cl) && server.delivered <= |server.stream| && !cl.at.Top?
    ensures InHand(server, Advance(cfg, server, c, cl, playbookFound))
  {
    MovePlaced(cfg, server, cl, playbookFound);
    NextEntryInHand(cfg, server, cl);
  }

  lemma ShapeKept(cfg: Config, s: State, step: Step)
    requires Shaped(cfg, s)
    ensures Shaped(cfg, Next(cfg, s, step))
  {
    var s' := Next(cfg, s, step);
    if step.Act? {
      EffectGrows(s.server, s.history, step.consumer, ClientOf(cfg, s, step.consumer), step.playbookFound);
    }
    assert s.server.stream <= s'.server.stream && s.server.delivered <= s'.server.delivered <= |s'.server.stream|;
    forall c: nat ensures InHand(s'.server, ClientOf(cfg, s', c)) {
      assert InHand(s.server, ClientOf(cfg, s, c));
      if step.Act? && c == step.consumer && step.fault.Fine? {
        if ClientOf(cfg, s, c).at.Top? {
          ReadInHand(cfg, s.server, s.history, c, ClientOf(cfg, s, c), step.playbookFound);
        } else {
          AdvanceInHand(cfg, s.server, c, ClientOf(cfg, s, c), step.playbookFound);
        }
      }
    }
  }

  /** The state after a finite schedule of steps, starting from an empty server. */
  function Run(cfg: Config, steps: seq<Step>): (s: State)
    ensures Shaped(cfg, s)
  {
    if steps == [] then Initial()
    else
      var last := |steps| - 1;
      ShapeKept(cfg, Run(cfg, steps[..last]), steps[last]);
      Next(cfg, Run(cfg, steps[..last]), steps[last])
  }

  lemma RunOneMore(cfg: Config, steps: seq<Step>, step: Step)
    requires step.Act? ==> InHand(Run(cfg, steps).server, ClientOf(cfg, Run(cfg, steps), step.consumer))
    ensures Run(cfg, steps + [step]) == Next(cfg, Run(cfg, steps), step)
  {
    assert (steps + [step])[..|steps|] == steps;
  }
}
