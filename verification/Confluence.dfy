/**
 The order in which the four topics are interleaved does not matter to the console, as long as no
 incident id recurs and every outcome comes after some message about its incident.
*/
module Confluence {
  import opened Prelude
  import opened Projection

  /** The four topics, numbered in the order in which the rebuild replays them. */
  function TopicOf(m: Message): nat {
    match m
    case DetectedMessage(_) => 0
    case DiagnosedMessage(_) => 1
    case SuppressedMessage(_) => 2
    case OutcomeMessage(_) => 3
  }

  function OfTopic(ms: seq<Message>, topic: nat): seq<Message> {
    if ms == [] then []
    else
      var last := |ms| - 1;
      if TopicOf(ms[last]) == topic then OfTopic(ms[..last], topic) + [ms[last]] else OfTopic(ms[..last], topic)
  }

  /** The messages as the rebuild replays them: topic after topic. */
  function TopicByTopic(ms: seq<Message>): seq<Message> {
    OfTopic(ms, 0) + OfTopic(ms, 1) + OfTopic(ms, 2) + OfTopic(ms, 3)
  }

  /** The incident a message describes, if it describes one that gets a card. */
  function SituationOf(m: Message): Option<Situation> {
    match m
    case DetectedMessage(s) => Some(s)
    case DiagnosedMessage(d) => Some(d.situation)
    case _ => None
  }

  predicate Describes(m: Message, id: string) {
    SituationOf(m).Some? && SituationOf(m).value.id == id
  }

  /** All messages about `id` describe the one occurrence `facts(id)`, and a detection says "detected". */
  predicate Agrees(m: Message, facts: string -> Situation) {
    && (SituationOf(m).Some? ==>
          SituationOf(m).value.(status := Detected) == facts(SituationOf(m).value.id))
    && (m.DetectedMessage? ==> m.situation.status.Detected?)
  }

  ghost predicate NoRecurrence(ms: seq<Message>, facts: string -> Situation) {
    forall m :: m in ms ==> Agrees(m, facts)
  }

  ghost predicate OutcomesFollow(ms: seq<Message>) {
    forall i :: 0 <= i < |ms| && ms[i].OutcomeMessage? ==>
      exists j :: 0 <= j < i && Describes(ms[j], ms[i].outcome.situationId)
  }

  // ---------------------------------------------------------------- boards that agree with the facts

  predicate CardAgrees(card: Card, s: Situation) {
    && Detected in card.stages
    && card == DetectedCard(Some(card), s.(status := card.status))
  }

  ghost predicate BoardAgrees(b: Board, facts: string -> Situation) {
    forall id :: id in b.cards ==> facts(id).id == id && CardAgrees(b.cards[id], facts(id))
  }

  lemma DetectionAgrees(existing: Option<Card>, s: Situation, facts: Situation)
    requires s.(status := Detected) == facts
    ensures CardAgrees(DetectedCard(existing, s), facts)
  {
  }

  lemma DiagnosisAgrees(card: Card, d: Diagnosis, facts: Situation)
    requires CardAgrees(card, facts)
    ensures CardAgrees(DiagnosedCard(card, d), facts)
  {
  }

  lemma OutcomeAgrees(card: Card, o: Outcome, facts: Situation)
    requires CardAgrees(card, facts)
    ensures CardAgrees(FinishedCard(card, o), facts)
  {
  }

  lemma AgreementKept(b: Board, m: Message, facts: string -> Situation, max: nat)
    requires BoardAgrees(b, facts) && Agrees(m, facts)
    ensures BoardAgrees(Apply(b, m, max), facts)
  {
    match m
    case DetectedMessage(s) => DetectionAgrees(Existing(b.cards, s), s, facts(s.id));
    case DiagnosedMessage(d) =>
      var s := d.situation;
      DetectionAgrees(Existing(b.cards, s), s, facts(s.id));
      DiagnosisAgrees(DetectedCard(Existing(b.cards, s), s), d, facts(s.id));
    case SuppressedMessage(_) =>
    case OutcomeMessage(o) =>
      if o.situationId in b.cards {
        OutcomeAgrees(b.cards[o.situationId], o, facts(o.situationId));
      }
  }

  lemma {:induction false} FoldKeepsAgreement(b: Board, ms: seq<Message>, facts: string -> Situation, max: nat)
    requires BoardAgrees(b, facts) && NoRecurrence(ms, facts)
    ensures BoardAgrees(Fold(b, ms, max), facts)
    ensures forall id :: id in Fold(b, ms, max).cards <==> id in b.cards || exists m :: m in ms && Describes(m, id)
  {
    if ms != [] {
      var last := |ms| - 1;
      var earlier := ms[..last];
      FoldKeepsAgreement(b, earlier, facts, max);
      assert Agrees(ms[last], facts);
      AgreementKept(Fold(b, earlier, max), ms[last], facts, max);
      forall id ensures id in Fold(b, ms, max).cards <==> id in b.cards || exists m :: m in ms && Describes(m, id) {
        CardsAfter(Fold(b, earlier, max), ms[last], max, id);
        assert forall m :: m in ms <==> m in earlier || m == ms[last];
      }
    }
  }

  lemma CardsAfter(b: Board, m: Message, max: nat, id: string)
    ensures id in Apply(b, m, max).cards <==> id in b.cards || Describes(m, id)
  {
  }

  // ---------------------------------------------------------------- commuting two messages

  /** On a card of the same occurrence a detection can only replace the status "detected". */
  lemma DetectedAgain(b: Board, s: Situation, facts: string -> Situation)
    requires BoardAgrees(b, facts) && s.(status := Detected) == facts(s.id) && s.id in b.cards
    ensures !Stale(b.cards, s) && Existing(b.cards, s) == Some(b.cards[s.id])
    ensures
      var card := b.cards[s.id];
      DetectedCard(Some(card), s) == card.(status := if card.status.Detected? then s.status else card.status)
  {
    var card := b.cards[s.id];
    assert CardAgrees(card, facts(s.id));
  }

  /** A detection of a known incident changes nothing. */
  lemma KnownDetectionIsIdle(b: Board, s: Situation, facts: string -> Situation)
    requires BoardAgrees(b, facts) && Agrees(DetectedMessage(s), facts) && s.id in b.cards
    ensures ApplyDetected(b, s) == b
  {
    DetectedAgain(b, s, facts);
  }

  /** A diagnosis alone makes the card that a detection followed by the diagnosis makes. */
  lemma DetectionAddsNothing(s: Situation, s': Situation)
    requires s.status.Detected? && s == s'.(status := Detected)
    ensures DetectedCard(Some(DetectedCard(None, s)), s') == DetectedCard(None, s')
  {
  }

  lemma DiagnosisThenOwnDetection(b: Board, d: Diagnosis, s: Situation)
    requires s.id !in b.cards && s.status.Detected? && s == d.situation.(status := Detected)
    ensures ApplyDiagnosed(b, d) == ApplyDiagnosed(ApplyDetected(b, s), d)
  {
    var detected := ApplyDetected(b, s);
    DetectionAddsNothing(s, d.situation);
    assert detected.cards[s.id] == DetectedCard(None, s);
    assert ApplyDiagnosed(detected, d).cards == ApplyDiagnosed(b, d).cards;
  }

  /** What becomes of one card does not depend on another. */
  lemma OtherCard(cards: map<string, Card>, id: string, card: Card, s: Situation)
    requires s.id != id
    ensures Stale(cards[id := card], s) == Stale(cards, s) && Existing(cards[id := card], s) == Existing(cards, s)
  {
  }

  lemma DiagnosisOfAnother(b: Board, d: Diagnosis, s: Situation)
    requires s.id != d.situation.id
    ensures ApplyDetected(ApplyDiagnosed(b, d), s) == ApplyDiagnosed(ApplyDetected(b, s), d)
  {
    var mine, other := DetectedCard(Existing(b.cards, s), s),
      DiagnosedCard(DetectedCard(Existing(b.cards, d.situation), d.situation), d);
    OtherCard(b.cards, d.situation.id, other, s);
    OtherCard(b.cards, s.id, mine, d.situation);
    assert b.cards[s.id := mine][d.situation.id := other] == b.cards[d.situation.id := other][s.id := mine];
  }

  lemma DiagnosisCommutesWithDetection(b: Board, d: Diagnosis, s: Situation, facts: string -> Situation)
    requires BoardAgrees(b, facts)
    requires Agrees(DetectedMessage(s), facts) && Agrees(DiagnosedMessage(d), facts)
    ensures ApplyDetected(ApplyDiagnosed(b, d), s) == ApplyDiagnosed(ApplyDetected(b, s), d)
  {
    if s.id in b.cards || s.id == d.situation.id {
      AgreementKept(b, DiagnosedMessage(d), facts, 0);
      CardsAfter(b, DiagnosedMessage(d), 0, s.id);
      KnownDetectionIsIdle(ApplyDiagnosed(b, d), s, facts);
      if s.id in b.cards {
        KnownDetectionIsIdle(b, s, facts);
      } else {
        DiagnosisThenOwnDetection(b, d, s);
      }
    } else {
      DiagnosisOfAnother(b, d, s);
    }
  }

  lemma OutcomeOfAnother(b: Board, o: Outcome, s: Situation, max: nat)
    requires o.situationId != s.id
    ensures ApplyDetected(ApplyOutcome(b, o, max), s) == ApplyOutcome(ApplyDetected(b, s), o, max)
  {
    var mine := DetectedCard(Existing(b.cards, s), s);
    if o.situationId in b.cards {
      var other := FinishedCard(b.cards[o.situationId], o);
      OtherCard(b.cards, o.situationId, other, s);
      assert b.cards[s.id := mine][o.situationId := other] == b.cards[o.situationId := other][s.id := mine];
    }
  }

  lemma OutcomeCommutesWithDetection(b: Board, o: Outcome, s: Situation, facts: string -> Situation, max: nat)
    requires BoardAgrees(b, facts) && Agrees(DetectedMessage(s), facts)
    requires o.situationId in b.cards || o.situationId != s.id
    ensures ApplyDetected(ApplyOutcome(b, o, max), s) == ApplyOutcome(ApplyDetected(b, s), o, max)
  {
    if s.id in b.cards {
      AgreementKept(b, OutcomeMessage(o), facts, max);
      KnownDetectionIsIdle(b, s, facts);
      KnownDetectionIsIdle(ApplyOutcome(b, o, max), s, facts);
    } else {
      OutcomeOfAnother(b, o, s, max);
    }
  }

  lemma FinishedThenDiagnosed(card: Card, o: Outcome, d: Diagnosis, facts: Situation)
    requires CardAgrees(card, facts) && d.situation.(status := Detected) == facts
    ensures DiagnosedCard(DetectedCard(Some(FinishedCard(card, o)), d.situation), d) ==
      FinishedCard(DiagnosedCard(DetectedCard(Some(card), d.situation), d), o)
  {
    var status := ResultStatus(o.result);
    assert card.stages[status := o.ts][Diagnosed := d.situation.lastSeen] ==
      card.stages[Diagnosed := d.situation.lastSeen][status := o.ts];
  }

  lemma OutcomeThenOwnDiagnosis(b: Board, o: Outcome, d: Diagnosis, facts: string -> Situation, max: nat)
    requires BoardAgrees(b, facts) && Agrees(DiagnosedMessage(d), facts)
    requires o.situationId == d.situation.id && o.situationId in b.cards
    ensures
      var card := b.cards[o.situationId];
      && ApplyDiagnosed(b, d).cards == b.cards[o.situationId := DiagnosedCard(DetectedCard(Some(card), d.situation), d)]
      && ApplyDiagnosed(ApplyOutcome(b, o, max), d).cards == b.cards[o.situationId :=
           FinishedCard(DiagnosedCard(DetectedCard(Some(card), d.situation), d), o)]
  {
    var id := o.situationId;
    var finished := ApplyOutcome(b, o, max);
    AgreementKept(b, OutcomeMessage(o), facts, max);
    DetectedAgain(b, d.situation, facts);
    DetectedAgain(finished, d.situation, facts);
    FinishedThenDiagnosed(b.cards[id], o, d, facts(id));
    assert finished.cards[id] == FinishedCard(b.cards[id], o);
  }

  lemma SameRow(cards: map<string, Card>, cards': map<string, Card>, o: Outcome)
    requires o.situationId in cards <==> o.situationId in cards'
    requires o.situationId in cards ==>
      cards[o.situationId].service == cards'[o.situationId].service &&
      cards[o.situationId].firstSeen == cards'[o.situationId].firstSeen
    ensures RowOf(cards, o) == RowOf(cards', o)
  {
  }

  lemma DifferentIncidentsCommute(b: Board, o: Outcome, d: Diagnosis, max: nat)
    requires o.situationId != d.situation.id
    ensures ApplyDiagnosed(ApplyOutcome(b, o, max), d) == ApplyOutcome(ApplyDiagnosed(b, d), o, max)
  {
    var one, other := ApplyDiagnosed(ApplyOutcome(b, o, max), d), ApplyOutcome(ApplyDiagnosed(b, d), o, max);
    assert one.cards == other.cards;
    SameRow(ApplyOutcome(b, o, max).cards, other.cards, o);
  }

  lemma OutcomeCommutesWithDiagnosis(b: Board, o: Outcome, d: Diagnosis, facts: string -> Situation, max: nat)
    requires BoardAgrees(b, facts) && Agrees(DiagnosedMessage(d), facts)
    requires o.situationId in b.cards || o.situationId != d.situation.id
    ensures ApplyDiagnosed(ApplyOutcome(b, o, max), d) == ApplyOutcome(ApplyDiagnosed(b, d), o, max)
  {
    if o.situationId == d.situation.id {
      OutcomeThenOwnDiagnosis(b, o, d, facts, max);
      DetectedAgain(b, d.situation, facts);
      var one, other := ApplyDiagnosed(ApplyOutcome(b, o, max), d), ApplyOutcome(ApplyDiagnosed(b, d), o, max);
      assert one.cards == other.cards;
      SameRow(ApplyOutcome(b, o, max).cards, other.cards, o);
    } else {
      DifferentIncidentsCommute(b, o, d, max);
    }
  }

  /** `later` may be applied before or after `m`, which belongs to an earlier topic. */
  lemma MessagesCommute(b: Board, later: Message, m: Message, facts: string -> Situation, max: nat)
    requires BoardAgrees(b, facts) && Agrees(later, facts) && Agrees(m, facts)
    requires TopicOf(m) < TopicOf(later)
    requires later.OutcomeMessage? ==> later.outcome.situationId in b.cards || !Describes(m, later.outcome.situationId)
    ensures Apply(Apply(b, later, max), m, max) == Apply(Apply(b, m, max), later, max)
  {
    match later
    case DiagnosedMessage(d) => DiagnosisCommutesWithDetection(b, d, m.situation, facts);
    case SuppressedMessage(_) =>
    case OutcomeMessage(o) =>
      match m {
        case DetectedMessage(s) => OutcomeCommutesWithDetection(b, o, s, facts, max);
        case DiagnosedMessage(d) => OutcomeCommutesWithDiagnosis(b, o, d, facts, max);
        case SuppressedMessage(_) =>
      }
  }

  /** A message may be applied before a block of messages of later topics instead of after it. */
  lemma {:induction false} MoveBack(b: Board, block: seq<Message>, m: Message, facts: string -> Situation, max: nat)
    requires BoardAgrees(b, facts) && NoRecurrence(block, facts) && Agrees(m, facts)
    requires forall x :: x in block ==> TopicOf(m) < TopicOf(x)
    requires forall x :: x in block && x.OutcomeMessage? ==> x.outcome.situationId in b.cards
    ensures Apply(Fold(b, block, max), m, max) == Fold(Apply(b, m, max), block, max)
  {
    if block != [] {
      var last := |block| - 1;
      var x, front := block[last], block[..last];
      MoveBack(b, front, m, facts, max);
      FoldKeepsAgreement(b, front, facts, max);
      MessagesCommute(Fold(b, front, max), x, m, facts, max);
    }
  }

  // ---------------------------------------------------------------- the theorem

  lemma {:induction false} TopicMembers(ms: seq<Message>, topic: nat)
    ensures forall m :: m in OfTopic(ms, topic) <==> m in ms && TopicOf(m) == topic
  {
    if ms != [] {
      var last := |ms| - 1;
      TopicMembers(ms[..last], topic);
      assert ms == ms[..last] + [ms[last]];
    }
  }

  /** One topic folded on top of the other. */
  function Layered(d: seq<Message>, g: seq<Message>, s: seq<Message>, o: seq<Message>, max: nat): Board {
    Fold(Fold(Fold(Fold(EMPTY, d, max), g, max), s, max), o, max)
  }

  lemma LayeredIsTopicByTopic(ms: seq<Message>, max: nat)
    ensures Fold(EMPTY, TopicByTopic(ms), max) ==
      Layered(OfTopic(ms, 0), OfTopic(ms, 1), OfTopic(ms, 2), OfTopic(ms, 3), max)
  {
    var d, g, s, o := OfTopic(ms, 0), OfTopic(ms, 1), OfTopic(ms, 2), OfTopic(ms, 3);
    FoldConcat(EMPTY, d, g, max);
    FoldConcat(EMPTY, d + g, s, max);
    FoldConcat(EMPTY, d + g + s, o, max);
  }

  ghost predicate AllOfTopic(ms: seq<Message>, topic: nat, facts: string -> Situation) {
    NoRecurrence(ms, facts) && forall m :: m in ms ==> TopicOf(m) == topic
  }

  /** A message that arrives after all four topics may as well stand at the end of its own. */
  lemma Insert(d: seq<Message>, g: seq<Message>, s: seq<Message>, o: seq<Message>, m: Message,
    facts: string -> Situation, max: nat)
    requires AllOfTopic(d, 0, facts) && AllOfTopic(g, 1, facts) && AllOfTopic(s, 2, facts) && AllOfTopic(o, 3, facts)
    requires Agrees(m, facts)
    requires forall x :: x in o ==> x.outcome.situationId in Fold(Fold(EMPTY, d, max), g, max).cards
    ensures Apply(Layered(d, g, s, o, max), m, max) ==
      match TopicOf(m)
      case 0 => Layered(d + [m], g, s, o, max)
      case 1 => Layered(d, g + [m], s, o, max)
      case 2 => Layered(d, g, s + [m], o, max)
      case _ => Layered(d, g, s, o + [m], max)
  {
    var bd := Fold(EMPTY, d, max);
    var bg := Fold(bd, g, max);
    var bs := Fold(bg, s, max);
    FoldKeepsAgreement(EMPTY, d, facts, max);
    FoldKeepsAgreement(bd, g, facts, max);
    FoldKeepsAgreement(bg, s, facts, max);
    match TopicOf(m)
    case 0 =>
      MoveBack(bs, o, m, facts, max);
      MoveBack(bg, s, m, facts, max);
      MoveBack(bd, g, m, facts, max);
      FoldAppend(EMPTY, d, m, max);
    case 1 =>
      MoveBack(bs, o, m, facts, max);
      MoveBack(bg, s, m, facts, max);
      FoldAppend(bd, g, m, max);
    case 2 =>
      MoveBack(bs, o, m, facts, max);
      FoldAppend(bg, s, m, max);
    case _ =>
      FoldAppend(bs, o, m, max);
  }

  lemma OutcomesKnown(ms: seq<Message>, facts: string -> Situation, max: nat, x: Message)
    requires NoRecurrence(ms, facts) && OutcomesFollow(ms) && x in OfTopic(ms, 3)
    ensures x.OutcomeMessage?
    ensures x.outcome.situationId in Fold(Fold(EMPTY, OfTopic(ms, 0), max), OfTopic(ms, 1), max).cards
  {
    var d, g := OfTopic(ms, 0), OfTopic(ms, 1);
    TopicMembers(ms, 0);
    TopicMembers(ms, 1);
    TopicMembers(ms, 3);
    FoldKeepsAgreement(EMPTY, d, facts, max);
    FoldKeepsAgreement(Fold(EMPTY, d, max), g, facts, max);
    var i :| 0 <= i < |ms| && ms[i] == x;
    var j :| 0 <= j < i && Describes(ms[j], ms[i].outcome.situationId);
    assert ms[j] in d || ms[j] in g;
  }

  function LayeredOf(ms: seq<Message>, max: nat): Board {
    Layered(OfTopic(ms, 0), OfTopic(ms, 1), OfTopic(ms, 2), OfTopic(ms, 3), max)
  }

  lemma PrefixFollows(ms: seq<Message>, m: Message)
    requires OutcomesFollow(ms + [m])
    ensures OutcomesFollow(ms)
  {
    forall i | 0 <= i < |ms| && ms[i].OutcomeMessage?
      ensures exists j :: 0 <= j < i && Describes(ms[j], ms[i].outcome.situationId)
    {
      assert (ms + [m])[i] == ms[i];
      var j :| 0 <= j < i && Describes((ms + [m])[j], ms[i].outcome.situationId);
      assert Describes(ms[j], ms[i].outcome.situationId);
    }
  }

  lemma OfTopicAppend(ms: seq<Message>, m: Message, topic: nat)
    ensures OfTopic(ms + [m], topic) == if TopicOf(m) == topic then OfTopic(ms, topic) + [m] else OfTopic(ms, topic)
  {
    assert (ms + [m])[..|ms|] == ms;
  }

  lemma OneMoreMessage(ms: seq<Message>, m: Message, facts: string -> Situation, max: nat)
    requires NoRecurrence(ms, facts) && OutcomesFollow(ms) && Agrees(m, facts)
    ensures Apply(LayeredOf(ms, max), m, max) == LayeredOf(ms + [m], max)
  {
    var d, g, s, o := OfTopic(ms, 0), OfTopic(ms, 1), OfTopic(ms, 2), OfTopic(ms, 3);
    TopicMembers(ms, 0);
    TopicMembers(ms, 1);
    TopicMembers(ms, 2);
    TopicMembers(ms, 3);
    forall x | x in o ensures x.outcome.situationId in Fold(Fold(EMPTY, d, max), g, max).cards {
      OutcomesKnown(ms, facts, max, x);
    }
    Insert(d, g, s, o, m, facts, max);
    OfTopicAppend(ms, m, 0);
    OfTopicAppend(ms, m, 1);
    OfTopicAppend(ms, m, 2);
    OfTopicAppend(ms, m, 3);
  }

  lemma {:induction false} SameAsLayered(ms: seq<Message>, facts: string -> Situation, max: nat)
    requires NoRecurrence(ms, facts) && OutcomesFollow(ms)
    ensures Fold(EMPTY, ms, max) == LayeredOf(ms, max)
  {
    if ms != [] {
      var last := |ms| - 1;
      var earlier, m := ms[..last], ms[last];
      assert ms == earlier + [m];
      PrefixFollows(earlier, m);
      SameAsLayered(earlier, facts, max);
      OneMoreMessage(earlier, m, facts, max);
    }
  }

  /** Any interleaving leaves the same board as replaying topic after topic. */
  lemma SameAsTopicByTopic(ms: seq<Message>, facts: string -> Situation, max: nat)
    requires NoRecurrence(ms, facts) && OutcomesFollow(ms)
    ensures Fold(EMPTY, ms, max) == Fold(EMPTY, TopicByTopic(ms), max)
  {
    SameAsLayered(ms, facts, max);
    LayeredIsTopicByTopic(ms, max);
  }

  /** Two interleavings of the same four topics show the same cards, outcome feed and counter. */
  lemma InterleavingsAgree(ms: seq<Message>, ns: seq<Message>, facts: string -> Situation, max: nat)
    requires NoRecurrence(ms, facts) && OutcomesFollow(ms)
    requires NoRecurrence(ns, facts) && OutcomesFollow(ns)
    requires forall topic :: 0 <= topic < 4 ==> OfTopic(ms, topic) == OfTopic(ns, topic)
    ensures Fold(EMPTY, ms, max) == Fold(EMPTY, ns, max)
  {
    SameAsTopicByTopic(ms, facts, max);
    SameAsTopicByTopic(ns, facts, max);
    assert OfTopic(ms, 0) == OfTopic(ns, 0) && OfTopic(ms, 1) == OfTopic(ns, 1);
    assert OfTopic(ms, 2) == OfTopic(ns, 2) && OfTopic(ms, 3) == OfTopic(ns, 3);
  }

  // ---------------------------------------------------------------- where it ends

  lemma SameOccurrenceCommutes(card: Card, s: Situation, o: Outcome)
    requires s.firstSeen == card.firstSeen
    ensures DetectedCard(Some(FinishedCard(card, o)), s) == FinishedCard(DetectedCard(Some(card), s), o)
  {
    var status := ResultStatus(o.result);
    var stages := card.stages;
    if Detected !in stages {
      assert stages[Detected := s.firstSeen][status := o.ts] == stages[status := o.ts][Detected := s.firstSeen];
    }
  }

  lemma NewOccurrenceCards(b: Board, o: Outcome, s: Situation, max: nat)
    requires o.situationId == s.id && (s.id !in b.cards || s.firstSeen > b.cards[s.id].firstSeen)
    ensures s.id in ApplyDetected(ApplyOutcome(b, o, max), s).cards &&
      s.id in ApplyOutcome(ApplyDetected(b, s), o, max).cards
    ensures ApplyDetected(ApplyOutcome(b, o, max), s).cards[s.id] == DetectedCard(None, s)
    ensures ApplyOutcome(ApplyDetected(b, s), o, max).cards[s.id].outcome.Some?
  {
    assert s.id in b.cards ==> ApplyOutcome(b, o, max).cards[s.id] == FinishedCard(b.cards[s.id], o);
    assert Existing(ApplyOutcome(b, o, max).cards, s) == None;
  }

  /** On a card of the same occurrence the two orders leave the same cards, and rows that differ in the service. */
  lemma SameOccurrenceOrders(b: Board, o: Outcome, s: Situation, max: nat)
    requires o.situationId == s.id && s.id in b.cards && s.firstSeen == b.cards[s.id].firstSeen
    ensures
      var one, other := ApplyDetected(ApplyOutcome(b, o, max), s), ApplyOutcome(ApplyDetected(b, s), o, max);
      && one.cards == other.cards && one.suppressed == other.suppressed
      && one.outcomes == Capped([RowOf(b.cards[s.id := FinishedCard(b.cards[s.id], o)], o)] + b.outcomes, max)
      && other.outcomes == Capped([RowOf(other.cards, o)] + b.outcomes, max)
      && s.id in other.cards && other.cards[s.id].service == ServiceOf(s.members)
      && other.cards[s.id].firstSeen == s.firstSeen
  {
    var card := b.cards[s.id];
    SameOccurrenceCommutes(card, s, o);
    assert ApplyDetected(ApplyOutcome(b, o, max), s).cards ==
      b.cards[s.id := DetectedCard(Some(FinishedCard(card, o)), s)];
    assert ApplyOutcome(ApplyDetected(b, s), o, max).cards ==
      b.cards[s.id := FinishedCard(DetectedCard(Some(card), s), o)];
  }

  lemma RowsDiffer<T>(one: T, other: T, rest: seq<T>, max: nat)
    ensures Capped([one] + rest, max) == Capped([other] + rest, max) <==> one == other || max == 0
  {
    if max > 0 {
      assert Capped([one] + rest, max)[0] == one && Capped([other] + rest, max)[0] == other;
    }
  }

  lemma KnownOccurrenceCommutes(b: Board, o: Outcome, s: Situation, max: nat)
    requires o.situationId == s.id && s.id in b.cards && s.firstSeen == b.cards[s.id].firstSeen
    ensures ApplyDetected(ApplyOutcome(b, o, max), s) == ApplyOutcome(ApplyDetected(b, s), o, max)
      <==> ServiceOf(s.members) == b.cards[s.id].service || max == 0
  {
    var one := RowOf(b.cards[s.id := FinishedCard(b.cards[s.id], o)], o);
    var other := RowOf(ApplyOutcome(ApplyDetected(b, s), o, max).cards, o);
    SameOccurrenceOrders(b, o, s, max);
    RowsDiffer(one, other, b.outcomes, max);
    assert one.service == b.cards[s.id].service && other.service == ServiceOf(s.members);
  }

  /** When an outcome and a detection of the same incident may change places. */
  predicate MayChangePlaces(b: Board, s: Situation, max: nat) {
    s.id in b.cards &&
    (s.firstSeen < b.cards[s.id].firstSeen ||
     (s.firstSeen == b.cards[s.id].firstSeen && (ServiceOf(s.members) == b.cards[s.id].service || max == 0)))
  }

  /**
   An outcome says only which incident it closes, not which occurrence. So it may change places with a
   detection of the same incident exactly when the incident has a card, the detection opens no newer
   occurrence, and, if it is about the occurrence shown, it does not change the service in the feed.
   */
  lemma OutcomeCommutesUnlessNewOccurrence(b: Board, o: Outcome, s: Situation, max: nat)
    requires o.situationId == s.id
    ensures ApplyDetected(ApplyOutcome(b, o, max), s) == ApplyOutcome(ApplyDetected(b, s), o, max)
      <==> MayChangePlaces(b, s, max)
  {
    if s.id !in b.cards || s.firstSeen > b.cards[s.id].firstSeen {
      NewOccurrenceCards(b, o, s, max);
    } else if s.firstSeen == b.cards[s.id].firstSeen {
      KnownOccurrenceCommutes(b, o, s, max);
    } else {
      assert ApplyOutcome(b, o, max).cards[s.id] == FinishedCard(b.cards[s.id], o);
    }
  }

  lemma ReplayOfThree(a: Message, o: Message, b: Message)
    requires a.DetectedMessage? && b.DetectedMessage? && o.OutcomeMessage?
    ensures TopicByTopic([a, o, b]) == [a, b, o]
  {
    assert [a, o, b] == [] + [a] + [o] + [b];
    forall topic: nat
      ensures OfTopic([a, o, b], topic) == if topic == 0 then [a, b] else if topic == 3 then [o] else []
    {
      OfTopicAppend([] + [a] + [o], b, topic);
      OfTopicAppend([] + [a], o, topic);
      OfTopicAppend([], a, topic);
    }
  }

  lemma FoldOfThree(a: Message, b: Message, c: Message, max: nat)
    ensures Fold(EMPTY, [a, b, c], max) == Apply(Apply(Apply(EMPTY, a, max), b, max), c, max)
  {
    assert [a, b, c] == [] + [a] + [b] + [c];
    FoldAppend(EMPTY, [] + [a] + [b], c, max);
    FoldAppend(EMPTY, [] + [a], b, max);
    FoldAppend(EMPTY, [], a, max);
  }

  /**
   Detected, closed, detected again: the replay, which sees the outcome after both detections, shows what
   the live console shows exactly when the second detection is older than the first, or is about the same
   occurrence and names the same service (or no feed is kept).
   */
  lemma RecurrenceBreaksReplay(a: Situation, o: Outcome, b: Situation, max: nat)
    requires a.id == b.id == o.situationId
    ensures
      var live := [DetectedMessage(a), OutcomeMessage(o), DetectedMessage(b)];
      Fold(EMPTY, live, max) == Fold(EMPTY, TopicByTopic(live), max) <==>
        b.firstSeen < a.firstSeen ||
        (b.firstSeen == a.firstSeen && (ServiceOf(b.members) == ServiceOf(a.members) || max == 0))
  {
    ReplayOfThree(DetectedMessage(a), OutcomeMessage(o), DetectedMessage(b));
    FoldOfThree(DetectedMessage(a), OutcomeMessage(o), DetectedMessage(b), max);
    FoldOfThree(DetectedMessage(a), DetectedMessage(b), OutcomeMessage(o), max);
    OutcomeCommutesUnlessNewOccurrence(ApplyDetected(EMPTY, a), o, b, max);
  }

  /** The title alone depends on which of detection and diagnosis comes last. */
  lemma TitleDependsOnOrder(s: Situation, d: Diagnosis)
    requires d.situation == s.(status := Diagnosed) && s.status.Detected?
    requires d.hypotheses != [] && d.hypotheses[0].description + " · " + ServiceOf(s.members) != s.signature
    ensures
      var detection, diagnosis := DetectedMessage(s), DiagnosedMessage(d);
      && ApplyTitle(ApplyTitle(map[], map[], detection), Apply(EMPTY, detection, 0).cards, diagnosis)[s.id] !=
         ApplyTitle(ApplyTitle(map[], map[], diagnosis), Apply(EMPTY, diagnosis, 0).cards, detection)[s.id]
  {
  }
}
