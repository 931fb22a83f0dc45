/**
 The read model: three topics of incident messages folded into the console's cards, plus a counter.

 The fold is first written on values (`Board`); class `ReadModel` updates its fields in place and is
 proved to compute exactly that fold. A card's title is kept in a map of its own: it is the one field
 that depends on the order in which detection and diagnosis arrive. Times are epoch milliseconds.
*/
module Projection {
  import opened Prelude

  datatype Status = Detected | Diagnosed | Acting | Resolved | Failed | NeedsAttention

  datatype Result = Success | Failure | RolledBack | EscalatedResult

  datatype Member = Member(name: string, value: Option<real>, labels: map<string, string>, ts: int)

  datatype Situation = Situation(
    id: string, signature: string, status: Status, severity: string, members: seq<Member>,
    firstSeen: int, lastSeen: int, peakScore: Option<real>,
    baseline: Option<map<string, (real, real)>>, handling: string)

  datatype Hypothesis = Hypothesis(description: string, confidence: real, runbook: Option<string>)

  datatype Diagnosis = Diagnosis(situation: Situation, hypotheses: seq<Hypothesis>, runbook: Option<string>)

  datatype Outcome = Outcome(
    situationId: string, playbookId: string, result: Result, healthAfter: string, ts: int,
    hitlMode: string, mode: string, handling: string, steps: seq<string>)

  datatype Message =
    | DetectedMessage(situation: Situation)
    | DiagnosedMessage(diagnosis: Diagnosis)
    | SuppressedMessage(situation: Situation)
    | OutcomeMessage(outcome: Outcome)

  datatype OutcomeBlock = OutcomeBlock(
    result: Result, healthAfter: string, mode: string, steps: seq<string>, handling: string)

  datatype Card = Card(
    signature: string, service: string, status: Status, severity: string, memberCount: nat,
    members: seq<Member>, peakScore: Option<real>, baseline: Option<map<string, (real, real)>>,
    firstSeen: int, lastSeen: int, hypotheses: seq<Hypothesis>, runbook: Option<string>,
    handling: string, lastActivity: int, stages: map<Status, int>, outcome: Option<OutcomeBlock>)

  datatype OutcomeRow = OutcomeRow(
    situationId: string, playbookId: string, result: Result, reason: string, ts: int,
    service: string, hitlMode: string, mode: string, handling: string, mttr: Option<int>)

  datatype Board = Board(cards: map<string, Card>, outcomes: seq<OutcomeRow>, suppressed: nat)

  const MAX_MEMBER_EVENTS: nat := 20

  const EMPTY: Board := Board(map[], [], 0)

  // ---------------------------------------------------------------- the fold on values

  function SeverityOf(severity: string): string {
    if severity in {"critical", "high", "medium", "low"} then severity else "medium"
  }

  function ServiceOf(members: seq<Member>): string {
    if members == [] then "unknown"
    else
      var labels := members[0].labels;
      if Label(labels, "service") != "" then Label(labels, "service")
      else if Label(labels, "job") != "" then Label(labels, "job")
      else if Label(labels, "instance") != "" then Label(labels, "instance")
      else ServiceOf(members[1..])
  }

  predicate Evictable(status: Status) {
    status.Resolved? || status.Failed? || status.NeedsAttention?
  }

  function ResultStatus(result: Result): Status {
    match result
    case Success => Resolved
    case Failure => Failed
    case RolledBack => Failed
    case EscalatedResult => NeedsAttention
  }

  /** A late message about an earlier occurrence than the card shows. */
  predicate Stale(cards: map<string, Card>, s: Situation) {
    s.id in cards && s.firstSeen < cards[s.id].firstSeen
  }

  /** The card a detection builds on: none when it opens a new occurrence of a finished incident. */
  function Existing(cards: map<string, Card>, s: Situation): Option<Card> {
    if s.id !in cards then None
    else if s.firstSeen > cards[s.id].firstSeen && Evictable(cards[s.id].status) then None
    else Some(cards[s.id])
  }

  function DetectedCard(existing: Option<Card>, s: Situation): Card {
    var keepStatus := existing.Some? && existing.value.firstSeen == s.firstSeen && !existing.value.status.Detected?;
    var stages := if existing.Some? then existing.value.stages else map[];
    Card(
      s.signature, ServiceOf(s.members),
      if keepStatus then existing.value.status else s.status,
      SeverityOf(s.severity), |s.members|,
      if |s.members| <= MAX_MEMBER_EVENTS then s.members else s.members[..MAX_MEMBER_EVENTS],
      s.peakScore, s.baseline, s.firstSeen, s.lastSeen,
      if existing.Some? then existing.value.hypotheses else [],
      if existing.Some? then existing.value.runbook else None,
      s.handling,
      if existing.Some? then existing.value.lastActivity else s.firstSeen,
      if Detected in stages then stages else stages[Detected := s.firstSeen],
      if existing.Some? then existing.value.outcome else None)
  }

  function ApplyDetected(b: Board, s: Situation): Board {
    if Stale(b.cards, s) then b
    else b.(cards := b.cards[s.id := DetectedCard(Existing(b.cards, s), s)])
  }

  function DiagnosedCard(card: Card, d: Diagnosis): Card {
    card.(
      hypotheses := d.hypotheses,
      runbook := d.runbook,
      stages := card.stages[Diagnosed := d.situation.lastSeen],
      status := if card.status.Detected? then Diagnosed else card.status)
  }

  function ApplyDiagnosed(b: Board, d: Diagnosis): Board {
    var s := d.situation;
    if Stale(b.cards, s) then b
    else b.(cards := b.cards[s.id := DiagnosedCard(DetectedCard(Existing(b.cards, s), s), d)])
  }

  function FinishedCard(card: Card, o: Outcome): Card {
    var status := ResultStatus(o.result);
    card.(
      status := status,
      lastActivity := o.ts,
      stages := card.stages[status := o.ts],
      outcome := Some(OutcomeBlock(o.result, o.healthAfter, o.mode, o.steps, o.handling)))
  }

  function RowOf(cards: map<string, Card>, o: Outcome): OutcomeRow {
    var known := o.situationId in cards;
    var mttr :=
      if known && o.result.Success? && o.ts - cards[o.situationId].firstSeen >= 0
      then Some(o.ts - cards[o.situationId].firstSeen) else None;
    OutcomeRow(
      o.situationId, o.playbookId, o.result, o.healthAfter, o.ts,
      if known then cards[o.situationId].service else "unknown",
      o.hitlMode, o.mode, o.handling, mttr)
  }

  function Capped<T>(xs: seq<T>, max: nat): seq<T> {
    if |xs| <= max then xs else xs[..max]
  }

  function ApplyOutcome(b: Board, o: Outcome, max: nat): Board {
    var cards :=
      if o.situationId in b.cards then b.cards[o.situationId := FinishedCard(b.cards[o.situationId], o)] else b.cards;
    Board(cards, Capped([RowOf(cards, o)] + b.outcomes, max), b.suppressed)
  }

  function Apply(b: Board, m: Message, max: nat): Board {
    match m
    case DetectedMessage(s) => ApplyDetected(b, s)
    case DiagnosedMessage(d) => ApplyDiagnosed(b, d)
    case SuppressedMessage(_) => b.(suppressed := b.suppressed + 1)
    case OutcomeMessage(o) => ApplyOutcome(b, o, max)
  }

  function Fold(b: Board, ms: seq<Message>, max: nat): Board {
    if ms == [] then b
    else Apply(Fold(b, ms[..|ms| - 1], max), ms[|ms| - 1], max)
  }

  lemma FoldAppend(b: Board, ms: seq<Message>, m: Message, max: nat)
    ensures Fold(b, ms + [m], max) == Apply(Fold(b, ms, max), m, max)
  {
    assert (ms + [m])[..|ms|] == ms;
  }

  lemma {:induction false} FoldConcat(b: Board, ms: seq<Message>, ns: seq<Message>, max: nat)
    ensures Fold(b, ms + ns, max) == Fold(Fold(b, ms, max), ns, max)
  {
    if ns == [] {
      assert ms + ns == ms;
    } else {
      var last := |ns| - 1;
      FoldConcat(b, ms, ns[..last], max);
      assert (ms + ns)[..|ms + ns| - 1] == ms + ns[..last];
    }
  }

  // ---------------------------------------------------------------- titles

  function TitleOf(m: Message): string {
    match m
    case DiagnosedMessage(d) =>
      if d.hypotheses == [] then d.situation.signature
      else d.hypotheses[0].description + " · " + ServiceOf(d.situation.members)
    case DetectedMessage(s) => s.signature
    case _ => ""
  }

  function ApplyTitle(titles: map<string, string>, cards: map<string, Card>, m: Message): map<string, string> {
    match m
    case DetectedMessage(s) => if Stale(cards, s) then titles else titles[s.id := TitleOf(m)]
    case DiagnosedMessage(d) => if Stale(cards, d.situation) then titles else titles[d.situation.id := TitleOf(m)]
    case _ => titles
  }

  /** All the console shows: the board and the titles. */
  datatype Screen = Screen(board: Board, titles: map<string, string>)

  const BLANK: Screen := Screen(EMPTY, map[])

  function Update(s: Screen, m: Message, max: nat): Screen {
    Screen(Apply(s.board, m, max), ApplyTitle(s.titles, s.board.cards, m))
  }

  function Project(s: Screen, ms: seq<Message>, max: nat): Screen {
    if ms == [] then s
    else Update(Project(s, ms[..|ms| - 1], max), ms[|ms| - 1], max)
  }

  lemma {:induction false} ProjectsBoard(s: Screen, ms: seq<Message>, max: nat)
    ensures Project(s, ms, max).board == Fold(s.board, ms, max)
  {
    if ms != [] {
      ProjectsBoard(s, ms[..|ms| - 1], max);
    }
  }

  lemma ProjectAppend(s: Screen, ms: seq<Message>, m: Message, max: nat)
    ensures Project(s, ms + [m], max) == Update(Project(s, ms, max), m, max)
  {
    assert (ms + [m])[..|ms|] == ms;
  }

  lemma {:induction false} ProjectConcat(s: Screen, ms: seq<Message>, ns: seq<Message>, max: nat)
    ensures Project(s, ms + ns, max) == Project(Project(s, ms, max), ns, max)
  {
    if ns == [] {
      assert ms + ns == ms;
    } else {
      var last := |ns| - 1;
      ProjectConcat(s, ms, ns[..last], max);
      assert (ms + ns)[..|ms + ns| - 1] == ms + ns[..last];
    }
  }

  // ---------------------------------------------------------------- progress of a card

  function Phase(status: Status): nat {
    match status
    case Detected => 0
    case Diagnosed => 1
    case Acting => 1
    case _ => 2
  }

  /** `b` shows an occurrence at least as recent as `a`, and if the same one, at least as far along. */
  predicate NotBefore(a: Card, b: Card) {
    a.firstSeen < b.firstSeen || (a.firstSeen == b.firstSeen && Phase(a.status) <= Phase(b.status))
  }

  lemma CardNeverGoesBack(b: Board, m: Message, max: nat, id: string)
    requires id in b.cards
    ensures id in Apply(b, m, max).cards && NotBefore(b.cards[id], Apply(b, m, max).cards[id])
  {
  }

  /** Whatever arrives in whatever order, no card is lost or moved back in time or in phase. */
  lemma {:induction false} CardsNeverGoBack(b: Board, ms: seq<Message>, max: nat, id: string)
    requires id in b.cards
    ensures id in Fold(b, ms, max).cards && NotBefore(b.cards[id], Fold(b, ms, max).cards[id])
  {
    if ms != [] {
      var last := |ms| - 1;
      CardsNeverGoBack(b, ms[..last], max, id);
      CardNeverGoesBack(Fold(b, ms[..last], max), ms[last], max, id);
    }
  }
}
