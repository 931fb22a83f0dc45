/** The read model as the object the service keeps: its methods compute the fold of module Projection. */
module ReadModels {
  import opened Prelude
  import opened Projection

  predicate Terminal(status: Status) {
    status.Resolved? || status.Failed?
  }

  /** The eviction order: genuinely finished cards first, then by last activity. */
  predicate EvictedBefore(a: Card, b: Card) {
    if a.status.NeedsAttention? == b.status.NeedsAttention? then a.lastActivity <= b.lastActivity
    else b.status.NeedsAttention?
  }

  /** What the cap pass may do to the cards. */
  ghost predicate Trimmed(before: map<string, Card>, after: map<string, Card>, max: nat) {
    && (forall id :: id in after ==> id in before && after[id] == before[id])
    && (forall gone :: gone in before && gone !in after ==> Evictable(before[gone].status))
    && (forall gone, kept :: gone in before && gone !in after && kept in after && Evictable(after[kept].status) ==>
          EvictedBefore(before[gone], after[kept]))
    && (|before| <= max ==> after == before)
    && (|before| > max ==> |after| >= max)
    && (|after| <= max || forall kept :: kept in after ==> !Evictable(after[kept].status))
  }

  function AgedOut(cards: map<string, Card>, now: int, ttl: int): map<string, Card> {
    map id | id in cards && !(Terminal(cards[id].status) && now - cards[id].lastActivity > ttl) :: cards[id]
  }

  /** What one look at the console may cost: cards resolved or failed longer ago than `ttl`, and those over the cap. */
  ghost predicate Looked(before: map<string, Card>, after: map<string, Card>, now: int, ttl: int, max: nat) {
    var idle := set id | id in before && before[id].status in {Resolved, Failed} && now - before[id].lastActivity > ttl;
    && (forall id :: id in after ==> id in before && id !in idle && after[id] == before[id])
    && (|before.Keys - idle| <= max ==> forall id :: id in before && id !in idle ==> id in after)
  }

  lemma WhatALookShows(before: map<string, Card>, after: map<string, Card>, now: int, ttl: int, max: nat)
    requires Trimmed(AgedOut(before, now, ttl), after, max)
    ensures Looked(before, after, now, ttl, max)
  {
    var idle := set id | id in before && before[id].status in {Resolved, Failed} && now - before[id].lastActivity > ttl;
    assert AgedOut(before, now, ttl).Keys == before.Keys - idle;
  }

  /** Distinct ids of cards, in eviction order. */
  ghost predicate InEvictionOrder(cards: map<string, Card>, ids: seq<string>) {
    && (forall id :: id in ids ==> id in cards)
    && (forall i, j :: 0 <= i < j < |ids| ==> ids[i] != ids[j] && EvictedBefore(cards[ids[i]], cards[ids[j]]))
  }

  lemma InsertedInOrder(cards: map<string, Card>, ids: seq<string>, id: string, k: nat)
    requires InEvictionOrder(cards, ids) && id in cards && id !in ids && k <= |ids|
    requires forall i :: 0 <= i < k ==> EvictedBefore(cards[ids[i]], cards[id])
    requires forall i :: k <= i < |ids| ==> EvictedBefore(cards[id], cards[ids[i]])
    ensures InEvictionOrder(cards, ids[..k] + [id] + ids[k..])
  {
    var longer := ids[..k] + [id] + ids[k..];
    assert forall i :: 0 <= i < |longer| ==> longer[i] == if i < k then ids[i] else if i == k then id else ids[i - 1];
  }

  method InsertInOrder(cards: map<string, Card>, ids: seq<string>, id: string) returns (longer: seq<string>)
    requires InEvictionOrder(cards, ids) && id in cards && id !in ids
    ensures InEvictionOrder(cards, longer)
    ensures forall x :: x in longer <==> x in ids || x == id
  {
    var k := |ids|;
    while k > 0 && !EvictedBefore(cards[ids[k - 1]], cards[id])
      invariant 0 <= k <= |ids|
      invariant forall j :: k <= j < |ids| ==> EvictedBefore(cards[id], cards[ids[j]])
    {
      k := k - 1;
    }
    assert forall i :: 0 <= i < k ==> EvictedBefore(cards[ids[i]], cards[id]);
    InsertedInOrder(cards, ids, id, k);
    assert ids == ids[..k] + ids[k..];
    longer := ids[..k] + [id] + ids[k..];
  }

  ghost predicate Without(before: map<string, Card>, after: map<string, Card>, drop: seq<string>) {
    && (forall id :: id in after <==> id in before && id !in drop)
    && (forall id :: id in after ==> after[id] == before[id])
  }

  lemma OneLess(before: map<string, Card>, cards: map<string, Card>, drop: seq<string>, i: nat)
    requires i < |drop| && drop[i] in before && drop[i] !in drop[..i]
    requires Without(before, cards, drop[..i])
    ensures Without(before, cards - {drop[i]}, drop[..i + 1]) && |cards - {drop[i]}| == |cards| - 1
  {
    assert drop[..i + 1] == drop[..i] + [drop[i]];
    assert cards.Keys == (cards - {drop[i]}).Keys + {drop[i]};
  }

  lemma DroppingPrefixTrims(before: map<string, Card>, ids: seq<string>, max: nat, after: map<string, Card>)
    requires InEvictionOrder(before, ids) && |before| > max
    requires forall id :: id in ids <==> id in before && Evictable(before[id].status)
    requires Without(before, after, Capped(ids, |before| - max))
    requires |after| == |before| - |Capped(ids, |before| - max)|
    ensures Trimmed(before, after, max)
  {
    var drop := Capped(ids, |before| - max);
    forall gone, kept | gone in before && gone !in after && kept in after && Evictable(after[kept].status)
      ensures EvictedBefore(before[gone], after[kept])
    {
      assert gone in drop && kept in ids && kept !in drop;
      var i :| 0 <= i < |drop| && drop[i] == gone;
      var j :| 0 <= j < |ids| && ids[j] == kept;
      assert j >= |drop|;
    }
  }

  /** A diagnosis is a detection followed by a change of the one card. */
  lemma DiagnosisOnDetection(b: Board, d: Diagnosis)
    requires !Stale(b.cards, d.situation)
    ensures
      var id, detected := d.situation.id, Projection.ApplyDetected(b, d.situation);
      && id in detected.cards
      && Projection.ApplyDiagnosed(b, d) ==
        detected.(cards := detected.cards[id := DiagnosedCard(detected.cards[id], d)])
      && detected.cards[id].service == ServiceOf(d.situation.members)
  {
  }

  class ReadModel {
    const maxOutcomes: nat
    const ttl: int
    const maxCards: nat
    var cards: map<string, Card>
    var titles: map<string, string>
    var outcomes: seq<OutcomeRow>
    var suppressed: nat

    function Board(): Projection.Board
      reads this
    {
      Projection.Board(cards, outcomes, suppressed)
    }

    function Screen(): Projection.Screen
      reads this
    {
      Projection.Screen(Board(), titles)
    }

    constructor (maxOutcomes: nat, ttl: int, maxCards: nat)
      ensures this.maxOutcomes == maxOutcomes && this.ttl == ttl && this.maxCards == maxCards
      ensures Screen() == BLANK
    {
      this.maxOutcomes := maxOutcomes;
      this.ttl := ttl;
      this.maxCards := maxCards;
      cards, titles, outcomes, suppressed := map[], map[], [], 0;
    }

    method ApplyDetected(s: Situation) returns (applied: bool)
      modifies this
      ensures applied == !Stale(old(cards), s)
      ensures Board() == Apply(old(Board()), DetectedMessage(s), maxOutcomes)
      ensures titles == ApplyTitle(old(titles), old(cards), DetectedMessage(s))
    {
      var existing: Option<Card> := None;
      if s.id in cards {
        var held := cards[s.id];
        if s.firstSeen < held.firstSeen {
          return false;
        }
        if !(s.firstSeen > held.firstSeen && Evictable(held.status)) {
          existing := Some(held);
        }
      }
      var status := s.status;
      if existing.Some? && existing.value.firstSeen == s.firstSeen && !existing.value.status.Detected? {
        status := existing.value.status;
      }
      var hypotheses, runbook, lastActivity, outcome := [], None, s.firstSeen, None;
      var stages: map<Status, int> := map[];
      if existing.Some? {
        hypotheses, runbook := existing.value.hypotheses, existing.value.runbook;
        lastActivity, outcome := existing.value.lastActivity, existing.value.outcome;
        stages := existing.value.stages;
      }
      if Detected !in stages {
        stages := stages[Detected := s.firstSeen];
      }
      assert s.members[..|s.members|] == s.members;
      cards := cards[s.id := Card(
        s.signature, ServiceOf(s.members), status, SeverityOf(s.severity), |s.members|,
        s.members[..Min(MAX_MEMBER_EVENTS, |s.members|)], s.peakScore, s.baseline, s.firstSeen, s.lastSeen,
        hypotheses, runbook, s.handling, lastActivity, stages, outcome)];
      titles := titles[s.id := s.signature];
      return true;
    }

    method ApplyDiagnosed(d: Diagnosis) returns (applied: bool)
      modifies this
      ensures applied == !Stale(old(cards), d.situation)
      ensures Board() == Apply(old(Board()), DiagnosedMessage(d), maxOutcomes)
      ensures titles == ApplyTitle(old(titles), old(cards), DiagnosedMessage(d))
    {
      ghost var was := Board();
      applied := ApplyDetected(d.situation);
      if applied {
        DiagnosisOnDetection(was, d);
        var id := d.situation.id;
        var card := cards[id];
        card := card.(hypotheses := d.hypotheses, runbook := d.runbook,
                      stages := card.stages[Diagnosed := d.situation.lastSeen]);
        if card.status.Detected? {
          card := card.(status := Diagnosed);
        }
        assert card == DiagnosedCard(cards[id], d);
        cards := cards[id := card];
        if d.hypotheses != [] {
          titles := titles[id := d.hypotheses[0].description + " · " + card.service];
        }
      }
    }

    method ApplySuppressed(s: Situation)
      modifies this
      ensures Board() == Apply(old(Board()), SuppressedMessage(s), maxOutcomes)
      ensures titles == old(titles)
    {
      suppressed := suppressed + 1;
    }

    method ApplyOutcome(o: Outcome)
      modifies this
      ensures Board() == Apply(old(Board()), OutcomeMessage(o), maxOutcomes)
      ensures titles == old(titles)
    {
      var service, mttr := "unknown", None;
      if o.situationId in cards {
        var card := cards[o.situationId];
        card := card.(status := ResultStatus(o.result), lastActivity := o.ts);
        card := card.(stages := card.stages[card.status := o.ts]);
        card := card.(outcome := Some(OutcomeBlock(o.result, o.healthAfter, o.mode, o.steps, o.handling)));
        cards := cards[o.situationId := card];
        service := card.service;
        if o.result.Success? && o.ts - card.firstSeen >= 0 {
          mttr := Some(o.ts - card.firstSeen);
        }
      }
      outcomes := [OutcomeRow(o.situationId, o.playbookId, o.result, o.healthAfter, o.ts,
                              service, o.hitlMode, o.mode, o.handling, mttr)] + outcomes;
      if |outcomes| > maxOutcomes {
        outcomes := outcomes[..maxOutcomes];
      }
    }

    method ApplyMessage(m: Message)
      modifies this
      ensures Screen() == Update(old(Screen()), m, maxOutcomes)
    {
      match m {
        case DetectedMessage(s) => var _ := ApplyDetected(s);
        case DiagnosedMessage(d) => var _ := ApplyDiagnosed(d);
        case SuppressedMessage(s) => ApplySuppressed(s);
        case OutcomeMessage(o) => ApplyOutcome(o);
      }
    }

    method AgeOut(now: int)
      modifies this`cards
      ensures cards == AgedOut(old(cards), now, ttl)
    {
      var todo := cards.Keys;
      while todo != {}
        invariant todo <= cards.Keys <= old(cards).Keys
        invariant forall id :: id in cards ==> cards[id] == old(cards)[id]
        invariant forall id :: id in old(cards) && id !in todo ==>
          (id in cards <==> id in AgedOut(old(cards), now, ttl))
        decreases todo
      {
        var id :| id in todo;
        if Terminal(cards[id].status) && now - cards[id].lastActivity > ttl {
          cards := cards - {id};
        }
        todo := todo - {id};
      }
    }

    /** The evictable cards' ids, in eviction order. */
    method SortedEvictable() returns (ids: seq<string>)
      ensures InEvictionOrder(cards, ids)
      ensures forall id :: id in ids <==> id in cards && Evictable(cards[id].status)
    {
      ids := [];
      var todo := set id | id in cards && Evictable(cards[id].status);
      while todo != {}
        invariant forall id :: id in todo || id in ids <==> id in cards && Evictable(cards[id].status)
        invariant forall id :: id in ids ==> id !in todo
        invariant InEvictionOrder(cards, ids)
        decreases todo
      {
        var id :| id in todo;
        todo := todo - {id};
        ids := InsertInOrder(cards, ids, id);
      }
    }

    method DropAll(drop: seq<string>)
      requires forall id :: id in drop ==> id in cards
      requires forall i, j :: 0 <= i < j < |drop| ==> drop[i] != drop[j]
      modifies this`cards
      ensures Without(old(cards), cards, drop)
      ensures |cards| == |old(cards)| - |drop|
    {
      var i := 0;
      while i < |drop|
        invariant 0 <= i <= |drop|
        invariant Without(old(cards), cards, drop[..i])
        invariant |cards| == |old(cards)| - i
      {
        assert drop[i] in drop && drop[i] !in drop[..i];
        OneLess(old(cards), cards, drop, i);
        cards := cards - {drop[i]};
        i := i + 1;
      }
      assert drop[..i] == drop;
    }

    method EnforceCap()
      modifies this`cards
      ensures Trimmed(old(cards), cards, maxCards)
    {
      if |cards| > maxCards {
        var ids := SortedEvictable();
        var drop := Capped(ids, |cards| - maxCards);
        assert forall id :: id in drop ==> id in ids;
        DropAll(drop);
        DroppingPrefixTrims(old(cards), ids, maxCards, cards);
      }
    }

    method Prune(now: int)
      modifies this`cards
      ensures Trimmed(AgedOut(old(cards), now, ttl), cards, maxCards)
      ensures Looked(old(cards), cards, now, ttl, maxCards)
    {
      AgeOut(now);
      EnforceCap();
      WhatALookShows(old(cards), cards, now, ttl, maxCards);
    }

    method Reset()
      modifies this
      ensures Screen() == BLANK
    {
      cards, titles, outcomes, suppressed := map[], map[], [], 0;
    }
  }

  /** Of two finished cards, or two that need a human, one was dropped and the other kept. */
  predicate DroppedBefore(before: map<string, Card>, after: map<string, Card>, gone: string, kept: string) {
    && gone in before && gone !in after && kept in after
    && after[kept].status in {Resolved, Failed, NeedsAttention}
    && (before[gone].status.NeedsAttention? <==> after[kept].status.NeedsAttention?)
  }

  /**
   The cap spares open work, a card that needs a human while a finished one is left, and of either kind the ones
   active last.
   */
  lemma CapSparesOpenWork(before: map<string, Card>, after: map<string, Card>, max: nat)
    requires Trimmed(before, after, max)
    ensures forall id :: id in before && before[id].status in {Detected, Diagnosed, Acting} ==>
      id in after && after[id] == before[id]
    ensures (exists id :: id in after && after[id].status in {Resolved, Failed}) ==>
      forall id :: id in before && before[id].status.NeedsAttention? ==> id in after
    ensures forall gone, kept :: DroppedBefore(before, after, gone, kept) ==>
      before[gone].lastActivity <= after[kept].lastActivity
    ensures |after| > max ==> forall id :: id in after ==> after[id].status in {Detected, Diagnosed, Acting}
  {
    if id :| id in after && after[id].status in {Resolved, Failed} {
      forall gone | gone in before && before[gone].status.NeedsAttention? ensures gone in after {
        assert gone in after || EvictedBefore(before[gone], after[id]);
      }
    }
    forall gone, kept | DroppedBefore(before, after, gone, kept)
      ensures before[gone].lastActivity <= after[kept].lastActivity
    {
      assert EvictedBefore(before[gone], after[kept]);
    }
  }
}
