/**
 What a rebuilt console shows, next to one that followed everything live. The topics are paged one after
 another while publishers append, so an outcome can be replayed although the detection and diagnosis of
 its incident came too late for theirs. That, and that alone, makes the two differ.
*/
module RebuildTheorems {
  import opened Prelude
  import opened Projection
  import opened Confluence
  import opened Streams
  import opened Rebuild
  import opened Handovers

  // ---------------------------------------------------------------- from streams to messages

  ghost predicate OnlyTopic(ms: seq<Message>, topic: nat) {
    forall m :: m in ms ==> TopicOf(m) == topic
  }

  /** The replay's starting point lies before everything in the topic. */
  ghost predicate Covered(entries: seq<Entry>, group: Option<Id>, windowStart: Id) {
    forall e :: e in entries ==> Admits(StartCursor(group, windowStart), e.id)
  }

  // ---------------------------------------------------------------- topics of a concatenation

  lemma {:induction false} OfTopicConcat(a: seq<Message>, b: seq<Message>, topic: nat)
    ensures OfTopic(a + b, topic) == OfTopic(a, topic) + OfTopic(b, topic)
  {
    if b == [] {
      assert a + b == a;
    } else {
      var front, m := b[..|b| - 1], b[|b| - 1];
      OfTopicConcat(a, front, topic);
      OneMoreMessage(a, front, m, topic);
      assert b == front + [m];
    }
  }

  lemma OneMoreMessage(a: seq<Message>, b: seq<Message>, m: Message, topic: nat)
    requires OfTopic(a + b, topic) == OfTopic(a, topic) + OfTopic(b, topic)
    ensures OfTopic(a + (b + [m]), topic) == OfTopic(a, topic) + OfTopic(b + [m], topic)
  {
    Regroup(a, b, [m]);
    OfTopicAppend(a + b, m, topic);
    OfTopicAppend(b, m, topic);
    Regroup(OfTopic(a, topic), OfTopic(b, topic), [m]);
  }

  lemma {:induction false} OfOwnTopic(ms: seq<Message>, own: nat, topic: nat)
    requires OnlyTopic(ms, own)
    ensures OfTopic(ms, topic) == if topic == own then ms else []
  {
    if ms != [] {
      OfOwnTopic(ms[..|ms| - 1], own, topic);
    }
  }

  /** What was replayed, topic by topic. */
  datatype Replay = Replay(detected: seq<Message>, diagnosed: seq<Message>, suppressed: seq<Message>,
    outcomes: seq<Message>)

  function All(r: Replay): seq<Message> {
    r.detected + r.diagnosed + r.suppressed + r.outcomes
  }

  ghost predicate ByTopic(r: Replay) {
    OnlyTopic(r.detected, 0) && OnlyTopic(r.diagnosed, 1) && OnlyTopic(r.suppressed, 2) && OnlyTopic(r.outcomes, 3)
  }

  function Part(r: Replay, topic: nat): seq<Message> {
    if topic == 0 then r.detected else if topic == 1 then r.diagnosed else if topic == 2 then r.suppressed
    else if topic == 3 then r.outcomes else []
  }

  lemma OneMoreTopic(before: seq<Message>, ms: seq<Message>, own: nat, topic: nat)
    requires OnlyTopic(ms, own)
    ensures OfTopic(before + ms, topic) == OfTopic(before, topic) + if topic == own then ms else []
  {
    OfTopicConcat(before, ms, topic);
    OfOwnTopic(ms, own, topic);
  }

  lemma AllByTopic(r: Replay, topic: nat)
    requires ByTopic(r)
    ensures OfTopic(All(r), topic) == Part(r, topic)
  {
    OfOwnTopic(r.detected, 0, topic);
    OneMoreTopic(r.detected, r.diagnosed, 1, topic);
    OneMoreTopic(r.detected + r.diagnosed, r.suppressed, 2, topic);
    OneMoreTopic(r.detected + r.diagnosed + r.suppressed, r.outcomes, 3, topic);
  }

  /** Every topic as the live console saw it is what was replayed of it followed by what the tail delivers. */
  ghost predicate SplitOf(live: seq<Message>, r: Replay, tail: seq<Message>) {
    ByTopic(r) && forall topic :: 0 <= topic < 4 ==> OfTopic(live, topic) == Part(r, topic) + OfTopic(tail, topic)
  }

  lemma SplitAgrees(live: seq<Message>, r: Replay, tail: seq<Message>, topic: nat)
    requires SplitOf(live, r, tail) && topic < 4
    ensures OfTopic(live, topic) == OfTopic(All(r) + tail, topic)
  {
    OfTopicConcat(All(r), tail, topic);
    AllByTopic(r, topic);
  }

  lemma SplitMembers(live: seq<Message>, r: Replay, tail: seq<Message>, m: Message)
    requires SplitOf(live, r, tail)
    ensures m in live <==> m in All(r) || m in tail
  {
    SplitAgrees(live, r, tail, TopicOf(m));
    TopicMembers(live, TopicOf(m));
    TopicMembers(All(r) + tail, TopicOf(m));
  }

  // ---------------------------------------------------------------- the conditions

  ghost predicate Described(ms: seq<Message>, id: string) {
    exists m :: m in ms && Describes(m, id)
  }

  /** Every replayed outcome's incident was itself replayed. */
  ghost predicate OutcomesReplayedWithIncident(r: Replay) {
    forall o :: o in r.outcomes && o.OutcomeMessage? ==> Described(r.detected + r.diagnosed, o.outcome.situationId)
  }

  /** In the tail an outcome comes after some message about its incident, replayed or in the tail itself. */
  ghost predicate TailFollows(r: Replay, tail: seq<Message>) {
    forall i :: 0 <= i < |tail| && tail[i].OutcomeMessage? ==>
      Described(r.detected + r.diagnosed, tail[i].outcome.situationId) ||
        Described(tail[..i], tail[i].outcome.situationId)
  }

  /** No incident has two outcomes. */
  ghost predicate OneOutcomeEach(live: seq<Message>) {
    forall i, j :: 0 <= i < j < |live| && live[i].OutcomeMessage? && live[j].OutcomeMessage? ==>
      live[i].outcome.situationId != live[j].outcome.situationId
  }

  // ---------------------------------------------------------------- agreement

  lemma DescribedEarlier(ms: seq<Message>, i: nat, id: string)
    requires i <= |ms| && Described(ms[..i], id)
    ensures exists j :: 0 <= j < i && Describes(ms[j], id)
  {
    var m :| m in ms[..i] && Describes(m, id);
    var j :| 0 <= j < i && ms[..i][j] == m;
    assert ms[j] == m;
  }

  lemma DescribedIn(some: seq<Message>, ms: seq<Message>, id: string)
    requires Described(some, id) && forall m :: m in some ==> m in ms
    ensures Described(ms, id)
  {
    var m :| m in some && Describes(m, id);
    assert m in ms;
  }

  /** The outcomes of a replay all come from its last topic. */
  lemma OutcomesReplayedLast(r: Replay, i: nat)
    requires ByTopic(r) && i < |All(r)| && All(r)[i].OutcomeMessage?
    ensures All(r)[i] in r.outcomes && |r.detected + r.diagnosed + r.suppressed| <= i
  {
    var before := r.detected + r.diagnosed + r.suppressed;
    forall k | 0 <= k < |before| ensures !All(r)[k].OutcomeMessage? {
      assert All(r)[k] == before[k];
      assert before[k] in r.detected || before[k] in r.diagnosed || before[k] in r.suppressed;
    }
    assert All(r)[i] == r.outcomes[i - |before|];
  }

  /** Replay and tail together then read like something a live console could have seen. */
  lemma ReplayFollows(r: Replay, tail: seq<Message>)
    requires ByTopic(r) && OutcomesReplayedWithIncident(r) && TailFollows(r, tail)
    ensures OutcomesFollow(All(r) + tail)
  {
    var ms := All(r) + tail;
    forall i | 0 <= i < |ms| && ms[i].OutcomeMessage?
      ensures exists j :: 0 <= j < i && Describes(ms[j], ms[i].outcome.situationId)
    {
      DescribedBefore(r, tail, i);
      DescribedEarlier(ms, i, ms[i].outcome.situationId);
    }
  }

  lemma DescribedBefore(r: Replay, tail: seq<Message>, i: nat)
    requires ByTopic(r) && OutcomesReplayedWithIncident(r) && TailFollows(r, tail)
    requires i < |All(r) + tail| && (All(r) + tail)[i].OutcomeMessage?
    ensures Described((All(r) + tail)[..i], (All(r) + tail)[i].outcome.situationId)
  {
    var ms := All(r) + tail;
    var id := ms[i].outcome.situationId;
    if i < |All(r)| {
      OutcomesReplayedLast(r, i);
      InPrefix(r, tail, i);
      DescribedIn(r.detected + r.diagnosed, ms[..i], id);
    } else {
      var k := i - |All(r)|;
      assert tail[k] == ms[i];
      if Described(tail[..k], id) {
        assert ms[..i] == All(r) + tail[..k];
        DescribedIn(tail[..k], ms[..i], id);
      } else {
        InPrefix(r, tail, i);
        DescribedIn(r.detected + r.diagnosed, ms[..i], id);
      }
    }
  }

  lemma InPrefix(r: Replay, tail: seq<Message>, i: nat)
    requires |r.detected + r.diagnosed + r.suppressed| <= i <= |All(r) + tail|
    ensures forall m :: m in r.detected + r.diagnosed ==> m in (All(r) + tail)[..i]
  {
    var first := r.detected + r.diagnosed;
    forall m | m in first ensures m in (All(r) + tail)[..i] {
      var k :| 0 <= k < |first| && first[k] == m;
      assert (All(r) + tail)[..i][k] == m;
    }
  }

  lemma RebuiltAgrees(live: seq<Message>, r: Replay, tail: seq<Message>, facts: string -> Situation, max: nat)
    requires NoRecurrence(live, facts) && OutcomesFollow(live) && SplitOf(live, r, tail) && TailFollows(r, tail)
    requires OutcomesReplayedWithIncident(r)
    ensures Fold(Fold(EMPTY, All(r), max), tail, max) == Fold(EMPTY, live, max)
  {
    ReplayFollows(r, tail);
    forall m | m in All(r) + tail ensures Agrees(m, facts) {
      SplitMembers(live, r, tail, m);
    }
    forall topic | 0 <= topic < 4 ensures OfTopic(live, topic) == OfTopic(All(r) + tail, topic) {
      SplitAgrees(live, r, tail, topic);
    }
    InterleavingsAgree(live, All(r) + tail, facts, max);
    FoldConcat(EMPTY, All(r), tail, max);
  }

  // ---------------------------------------------------------------- disagreement

  /** Without recurrence nothing but an outcome touches a card's outcome, and nothing takes it away. */
  lemma OutcomeOfCard(b: Board, m: Message, facts: string -> Situation, max: nat, id: string)
    requires BoardAgrees(b, facts) && Agrees(m, facts)
    ensures
      var b' := Apply(b, m, max);
      && (id in b.cards && (b.cards[id].outcome.Some? || (m.OutcomeMessage? && m.outcome.situationId == id)) ==>
            id in b'.cards && b'.cards[id].outcome.Some?)
      && ((id in b.cards ==> b.cards[id].outcome.None?) && !(m.OutcomeMessage? && m.outcome.situationId == id) ==>
            (id in b'.cards ==> b'.cards[id].outcome.None?))
  {
    if SituationOf(m).Some? && SituationOf(m).value.id in b.cards {
      DetectedAgain(b, SituationOf(m).value, facts);
    }
  }

  /** When an outcome arrives its incident has a card. */
  lemma HasCard(ms: seq<Message>, k: nat, facts: string -> Situation, max: nat)
    requires NoRecurrence(ms, facts) && OutcomesFollow(ms) && k < |ms| && ms[k].OutcomeMessage?
    ensures ms[k].outcome.situationId in Fold(EMPTY, ms[..k], max).cards
  {
    FoldKeepsAgreement(EMPTY, ms[..k], facts, max);
    var j :| 0 <= j < k && Describes(ms[j], ms[k].outcome.situationId);
    assert ms[..k][j] in ms[..k];
  }

  predicate ShownClosed(b: Board, id: string) {
    id in b.cards && b.cards[id].outcome.Some?
  }

  lemma {:induction false} StaysClosed(b: Board, ms: seq<Message>, facts: string -> Situation, max: nat, id: string)
    requires BoardAgrees(b, facts) && NoRecurrence(ms, facts) && ShownClosed(b, id)
    ensures ShownClosed(Fold(b, ms, max), id)
  {
    if ms != [] {
      var last := |ms| - 1;
      StaysClosed(b, ms[..last], facts, max, id);
      FoldKeepsAgreement(b, ms[..last], facts, max);
      OutcomeOfCard(Fold(b, ms[..last], max), ms[last], facts, max, id);
    }
  }

  lemma OutcomeCloses(earlier: seq<Message>, o: Message, later: seq<Message>, facts: string -> Situation, max: nat)
    requires NoRecurrence(earlier, facts) && Agrees(o, facts) && NoRecurrence(later, facts)
    requires o.OutcomeMessage? && o.outcome.situationId in Fold(EMPTY, earlier, max).cards
    ensures ShownClosed(Fold(EMPTY, earlier + [o] + later, max), o.outcome.situationId)
  {
    var b := Fold(EMPTY, earlier, max);
    FoldKeepsAgreement(EMPTY, earlier, facts, max);
    AgreementKept(b, o, facts, max);
    OutcomeOfCard(b, o, facts, max, o.outcome.situationId);
    FoldAppend(EMPTY, earlier, o, max);
    StaysClosed(Apply(b, o, max), later, facts, max, o.outcome.situationId);
    FoldConcat(EMPTY, earlier + [o], later, max);
  }

  lemma Around(ms: seq<Message>, k: nat, facts: string -> Situation)
    requires NoRecurrence(ms, facts) && k < |ms|
    ensures ms[..k] + [ms[k]] + ms[k + 1..] == ms
    ensures NoRecurrence(ms[..k], facts) && NoRecurrence(ms[k + 1..], facts)
  {
  }

  /** Live, an incident with an outcome is shown with one. */
  lemma ClosedIsShown(ms: seq<Message>, facts: string -> Situation, max: nat, o: Message)
    requires NoRecurrence(ms, facts) && OutcomesFollow(ms) && o in ms && o.OutcomeMessage?
    ensures ShownClosed(Fold(EMPTY, ms, max), o.outcome.situationId)
  {
    var k :| 0 <= k < |ms| && ms[k] == o;
    HasCard(ms, k, facts, max);
    Around(ms, k, facts);
    OutcomeCloses(ms[..k], o, ms[k + 1..], facts, max);
  }

  /** An incident without a card, or with an open one, stays open while no outcome of it arrives. */
  lemma {:induction false} StaysOpen(b: Board, ms: seq<Message>, facts: string -> Situation, max: nat, id: string)
    requires BoardAgrees(b, facts) && NoRecurrence(ms, facts)
    requires id in b.cards ==> b.cards[id].outcome.None?
    requires forall m :: m in ms && m.OutcomeMessage? ==> m.outcome.situationId != id
    ensures id in Fold(b, ms, max).cards ==> Fold(b, ms, max).cards[id].outcome.None?
  {
    if ms != [] {
      var last := |ms| - 1;
      StaysOpen(b, ms[..last], facts, max, id);
      FoldKeepsAgreement(b, ms[..last], facts, max);
      OutcomeOfCard(Fold(b, ms[..last], max), ms[last], facts, max, id);
    }
  }

  lemma {:induction false} OutcomesInOrder(ms: seq<Message>)
    requires OneOutcomeEach(ms)
    ensures OneOutcomeEach(OfTopic(ms, 3))
  {
    if ms != [] {
      var last := |ms| - 1;
      OutcomesInOrder(ms[..last]);
      TopicMembers(ms[..last], 3);
      var earlier, all := OfTopic(ms[..last], 3), OfTopic(ms, 3);
      if ms[last].OutcomeMessage? {
        forall i | 0 <= i < |earlier|
          ensures earlier[i].OutcomeMessage? ==> earlier[i].outcome.situationId != ms[last].outcome.situationId
        {
          assert earlier[i] in ms[..last];
          var k :| 0 <= k < last && ms[..last][k] == earlier[i];
          assert ms[k] == earlier[i];
        }
      }
    }
  }

  /** The one outcome of an incident is either replayed or in the tail. */
  lemma NotInTail(live: seq<Message>, r: Replay, tail: seq<Message>, o: Message)
    requires SplitOf(live, r, tail) && OneOutcomeEach(live) && o in r.outcomes && o.OutcomeMessage?
    ensures forall m :: m in tail && m.OutcomeMessage? ==> m.outcome.situationId != o.outcome.situationId
  {
    OutcomesInOrder(live);
    TopicMembers(tail, 3);
    var all, late := OfTopic(live, 3), OfTopic(tail, 3);
    assert all == r.outcomes + late;
    var i :| 0 <= i < |r.outcomes| && r.outcomes[i] == o;
    forall m | m in tail && m.OutcomeMessage? ensures m.outcome.situationId != o.outcome.situationId {
      assert m in late;
      var j :| 0 <= j < |late| && late[j] == m;
      assert all[i] == o && all[|r.outcomes| + j] == m;
    }
  }

  /** What describes an incident comes from the first two topics. */
  lemma DescribersReplayedFirst(r: Replay)
    requires ByTopic(r)
    ensures forall m, id :: m in All(r) && Describes(m, id) ==> m in r.detected + r.diagnosed
  {
  }

  /** An outcome replayed without its incident is lost to the console for good. */
  lemma OutcomeIsLost(live: seq<Message>, r: Replay, tail: seq<Message>, facts: string -> Situation, max: nat,
    o: Message)
    requires NoRecurrence(live, facts) && OutcomesFollow(live) && SplitOf(live, r, tail) && OneOutcomeEach(live)
    requires o in r.outcomes && o.OutcomeMessage? && !Described(r.detected + r.diagnosed, o.outcome.situationId)
    ensures
      var id := o.outcome.situationId;
      && ShownClosed(Fold(EMPTY, live, max), id)
      && !ShownClosed(Fold(Fold(EMPTY, All(r), max), tail, max), id)
  {
    var id := o.outcome.situationId;
    var replayed := Fold(EMPTY, All(r), max);
    SplitMembers(live, r, tail, o);
    ClosedIsShown(live, facts, max, o);
    forall m | m in All(r) || m in tail ensures Agrees(m, facts) {
      SplitMembers(live, r, tail, m);
    }
    FoldKeepsAgreement(EMPTY, All(r), facts, max);
    DescribersReplayedFirst(r);
    NotInTail(live, r, tail, o);
    StaysOpen(replayed, tail, facts, max, id);
  }

  /**
   Without recurrence, and with the tail's outcomes in order, the rebuilt console shows what one that never
   restarted shows if every replayed outcome's incident was replayed too; and only if, when no incident
   has two outcomes.
   */
  lemma RebuiltConsoleMatchesLive(live: seq<Message>, r: Replay, tail: seq<Message>, facts: string -> Situation,
    max: nat)
    requires NoRecurrence(live, facts) && OutcomesFollow(live) && SplitOf(live, r, tail) && TailFollows(r, tail)
    ensures OutcomesReplayedWithIncident(r) ==>
      Fold(Fold(EMPTY, All(r), max), tail, max) == Fold(EMPTY, live, max)
    ensures OneOutcomeEach(live) ==>
      (Fold(Fold(EMPTY, All(r), max), tail, max) == Fold(EMPTY, live, max) <==> OutcomesReplayedWithIncident(r))
  {
    if OutcomesReplayedWithIncident(r) {
      RebuiltAgrees(live, r, tail, facts, max);
    } else if OneOutcomeEach(live) {
      var o :| o in r.outcomes && o.OutcomeMessage? && !Described(r.detected + r.diagnosed, o.outcome.situationId);
      OutcomeIsLost(live, r, tail, facts, max, o);
    }
  }

  // ---------------------------------------------------------------- from a rebuild to the theorem

  function ReplayOf(handed: seq<seq<Entry>>): Replay
    requires |handed| == 4
  {
    Replay(Decoded(handed[0]), Decoded(handed[1]), Decoded(handed[2]), Decoded(handed[3]))
  }

  lemma ReplayIsFlat(handed: seq<seq<Entry>>)
    requires |handed| == 4
    ensures Decoded(Flat(handed)) == All(ReplayOf(handed))
  {
    FlatOfFour(handed);
    DecodedConcat(handed[0], handed[1]);
    DecodedConcat(handed[0] + handed[1], handed[2]);
    DecodedConcat(handed[0] + handed[1] + handed[2], handed[3]);
  }

  lemma FlatOfFour(handed: seq<seq<Entry>>)
    requires |handed| == 4
    ensures Flat(handed) == handed[0] + handed[1] + handed[2] + handed[3]
  {
    assert handed[..1][..0] == [] && Flat(handed[..1]) == handed[0];
    assert handed[..2][..1] == handed[..1] && Flat(handed[..2]) == handed[0] + handed[1];
    assert handed[..3][..2] == handed[..2] && Flat(handed[..3]) == handed[0] + handed[1] + handed[2];
  }

  /** An undisturbed rebuild of the four topics, each of its own kind and covered from the start by call `n`. */
  ghost predicate RebuiltBy(scene: Scene, limits: Limits, groups: seq<Group>, groups': seq<Group>, c: Course, n: nat) {
    && |groups| == |groups'| == |scene.logs| == |c.ends| == |c.handed| == 4
    && Succeeds(scene, limits, groups, groups', c) && Undisturbed(scene, c) && WithinTopics(scene, groups, c.from)
    && forall i: nat :: i < 4 ==>
         && c.ends[i] <= n && Covered(scene.LogAt(i, n).entries, groups[i].position, limits.windowStart)
         && OnlyTopic(Decoded(scene.LogAt(i, n).entries), i)
  }

  /** `live` is an interleaving of all that the topics hold by call `n`. */
  ghost predicate SeesAll(scene: Scene, n: nat, live: seq<Message>)
    requires |scene.logs| == 4
  {
    forall i: nat :: i < 4 ==> OfTopic(live, i) == Decoded(scene.LogAt(i, n).entries)
  }

  /** `tail` is an interleaving of what the live tails deliver by call `n`. */
  ghost predicate SeesTails(scene: Scene, groups: seq<Group>, n: nat, tail: seq<Message>)
    requires |scene.logs| == |groups| == 4
  {
    forall i: nat :: i < 4 ==> OfTopic(tail, i) == Decoded(TailAt(scene, groups, i, n))
  }

  /** Of a covered topic nothing is shown twice and nothing is missed: replay and tail make up the whole. */
  lemma TopicIsSplit(scene: Scene, limits: Limits, groups: seq<Group>, groups': seq<Group>, c: Course, n: nat, i: nat)
    requires RebuiltBy(scene, limits, groups, groups', c, n) && i < 4
    ensures c.handed[i] + TailAt(scene, groups', i, n) == scene.LogAt(i, n).entries
    ensures Decoded(c.handed[i]) + Decoded(TailAt(scene, groups', i, n)) == Decoded(scene.LogAt(i, n).entries)
  {
    var now := scene.LogAt(i, n).entries;
    RebuildDivides(scene, limits, groups, groups', c, i, n);
    RangeAll(now, StartCursor(groups[i].position, limits.windowStart));
    DecodedConcat(c.handed[i], TailAt(scene, groups', i, n));
  }

  /** The division the theorem asks for is what a rebuild establishes. */
  lemma RebuildSplits(scene: Scene, limits: Limits, groups: seq<Group>, groups': seq<Group>, c: Course, n: nat,
    live: seq<Message>, tail: seq<Message>)
    requires RebuiltBy(scene, limits, groups, groups', c, n)
    requires SeesAll(scene, n, live) && SeesTails(scene, groups', n, tail)
    ensures SplitOf(live, ReplayOf(c.handed), tail)
  {
    var r := ReplayOf(c.handed);
    forall i: nat | i < 4 ensures OfTopic(live, i) == Part(r, i) + OfTopic(tail, i) && OnlyTopic(Part(r, i), i) {
      TopicIsSplit(scene, limits, groups, groups', c, n, i);
      assert forall m :: m in Decoded(c.handed[i]) ==> m in Decoded(scene.LogAt(i, n).entries);
    }
    assert OnlyTopic(Part(r, 0), 0) && OnlyTopic(Part(r, 1), 1) && OnlyTopic(Part(r, 2), 2) && OnlyTopic(Part(r, 3), 3);
  }

  /** The model a rebuild returns, tailed, against the live console: both directions, on the topics themselves. */
  lemma RebuildMatchesLive(scene: Scene, limits: Limits, groups: seq<Group>, groups': seq<Group>, c: Course, n: nat,
    live: seq<Message>, tail: seq<Message>, facts: string -> Situation, max: nat)
    requires RebuiltBy(scene, limits, groups, groups', c, n)
    requires SeesAll(scene, n, live) && SeesTails(scene, groups', n, tail)
    requires NoRecurrence(live, facts) && OutcomesFollow(live) && TailFollows(ReplayOf(c.handed), tail)
    ensures OutcomesReplayedWithIncident(ReplayOf(c.handed)) ==>
      Fold(Fold(EMPTY, Decoded(Flat(c.handed)), max), tail, max) == Fold(EMPTY, live, max)
    ensures OneOutcomeEach(live) ==>
      (Fold(Fold(EMPTY, Decoded(Flat(c.handed)), max), tail, max) == Fold(EMPTY, live, max) <==>
       OutcomesReplayedWithIncident(ReplayOf(c.handed)))
  {
    ReplayIsFlat(c.handed);
    RebuildSplits(scene, limits, groups, groups', c, n, live, tail);
    RebuiltConsoleMatchesLive(live, ReplayOf(c.handed), tail, facts, max);
  }

  // ---------------------------------------------------------------- a rebuild that loses an outcome

  /** An incident is detected before call 2, when the detections have been paged, and closed before call 3. */
  function LateIncident(detection: Message, outcome: Message): Scene {
    Scene(
      [Log([], ZERO), Log([], ZERO), Log([], ZERO), Log([], ZERO)],
      k => Call(
        j => if k == 2 && j == 0 then [Arrival(1, Some(detection))]
             else if k == 3 && j == 3 then [Arrival(1, Some(outcome))] else [],
        Fine))
  }

  function First(m: Message): Entry {
    Entry(Id(1, 0), Some(m))
  }

  function LateLog(detection: Message, outcome: Message, j: nat, n: nat): Log {
    if j == 0 && n > 2 then Log([First(detection)], Id(1, 0))
    else if j == 3 && n > 3 then Log([First(outcome)], Id(1, 0))
    else Log([], ZERO)
  }

  lemma PublishedOne(m: Message)
    ensures Published(Log([], ZERO), [Arrival(1, Some(m))]) == Log([First(m)], Id(1, 0))
  {
    assert [Arrival(1, Some(m))][..0] == [];
  }

  lemma {:induction false} LateLogs(detection: Message, outcome: Message, j: nat, n: nat)
    requires j < 4
    ensures LateIncident(detection, outcome).LogAt(j, n) == LateLog(detection, outcome, j, n)
  {
    if n > 0 {
      LateLogs(detection, outcome, j, n - 1);
      PublishedOne(detection);
      PublishedOne(outcome);
    }
  }

  const NEW_GROUPS: seq<Group> := [NEW_GROUP, NEW_GROUP, NEW_GROUP, NEW_GROUP]

  /** How the groups stand after that rebuild, and how it went. */
  const LATE_GROUPS: seq<Group> :=
    [Group(Some(ZERO), []), Group(Some(ZERO), []), Group(Some(ZERO), []), Group(Some(Id(1, 0)), [])]

  function LateCourse(outcome: Message): Course {
    Course(0, [[], [], [], [First(outcome)]], [2, 4, 6, 9], [11, 13, 15, 19])
  }

  lemma LateRead(detection: Message, outcome: Message, limits: Limits, i: nat)
    requires i < 4 && limits.windowStart == ZERO && limits.maxEntries >= 1
    ensures
      var c := LateCourse(outcome);
      ReadAt(LateIncident(detection, outcome), NEW_GROUPS, limits, c.from, c.ends, c.handed, i)
  {
    var c := LateCourse(outcome);
    LateLogs(detection, outcome, i, c.ends[i]);
    RangeAll([First(outcome)], At(ZERO));
  }

  lemma LateTakeover(detection: Message, outcome: Message, i: nat)
    requires i < 4
    ensures
      var c := LateCourse(outcome);
      Ended(LateIncident(detection, outcome), NEW_GROUPS, LATE_GROUPS, c.handed, 9, c.steps, i, false)
  {
    var c, scene := LateCourse(outcome), LateIncident(detection, outcome);
    var k := StartOf(9, c.steps, i);
    assert AckPending(scene, Group(Some(ZERO), []), k + 1) == Handover(Group(Some(ZERO), []), k + 2, Done);
    assert AckPending(scene, Group(Some(Id(1, 0)), []), k + 3) == Handover(Group(Some(Id(1, 0)), []), k + 4, Done);
  }

  lemma LateRebuild(detection: Message, outcome: Message, limits: Limits)
    requires TopicOf(detection) == 0 && TopicOf(outcome) == 3
    requires limits.windowStart == ZERO && limits.maxEntries >= 1
    ensures RebuiltBy(LateIncident(detection, outcome), limits, NEW_GROUPS, LATE_GROUPS, LateCourse(outcome), 19)
  {
    var scene, c := LateIncident(detection, outcome), LateCourse(outcome);
    forall i: nat | i < 4 ensures ReadAt(scene, NEW_GROUPS, limits, c.from, c.ends, c.handed, i) {
      LateRead(detection, outcome, limits, i);
    }
    forall i: nat | i < 4 ensures Ended(scene, NEW_GROUPS, LATE_GROUPS, c.handed, 9, c.steps, i, false) {
      LateTakeover(detection, outcome, i);
    }
    forall i: nat | i < 4
      ensures Covered(scene.LogAt(i, 19).entries, None, ZERO) && OnlyTopic(Decoded(scene.LogAt(i, 19).entries), i)
    {
      LateLogs(detection, outcome, i, 19);
    }
  }

  lemma DecodedFirst(m: Message)
    ensures Decoded([First(m)]) == [m]
  {
    assert [First(m)][..0] == [];
  }

  lemma LateSeen(detection: Message, outcome: Message, i: nat)
    requires TopicOf(detection) == 0 && TopicOf(outcome) == 3 && i < 4
    ensures OfTopic([detection, outcome], i) == Decoded(LateLog(detection, outcome, i, 19).entries)
  {
    OfOwnTopic([detection], 0, i);
    OfTopicAppend([detection], outcome, i);
    assert [detection] + [outcome] == [detection, outcome];
    DecodedFirst(detection);
    DecodedFirst(outcome);
  }

  lemma LateRange(detection: Message, outcome: Message, i: nat)
    requires i < 4
    ensures Range(LateLog(detection, outcome, i, 19).entries, After(Stands(LATE_GROUPS[i].position))) ==
      if i == 0 then [First(detection)] else []
  {
    if i == 0 {
      RangeAll([First(detection)], After(ZERO));
    } else if i == 3 {
      RangeNone([First(outcome)], After(Id(1, 0)));
    }
  }

  lemma LateTail(detection: Message, outcome: Message, i: nat)
    requires TopicOf(detection) == 0 && i < 4
    ensures OfTopic([detection], i) ==
      Decoded(Range(LateLog(detection, outcome, i, 19).entries, After(Stands(LATE_GROUPS[i].position))))
  {
    LateRange(detection, outcome, i);
    OfOwnTopic([detection], 0, i);
    DecodedFirst(detection);
  }

  lemma LateViews(detection: Message, outcome: Message)
    requires TopicOf(detection) == 0 && TopicOf(outcome) == 3
    ensures SeesAll(LateIncident(detection, outcome), 19, [detection, outcome])
    ensures SeesTails(LateIncident(detection, outcome), LATE_GROUPS, 19, [detection])
  {
    forall i: nat | i < 4
      ensures OfTopic([detection, outcome], i) == Decoded(LateIncident(detection, outcome).LogAt(i, 19).entries)
      ensures OfTopic([detection], i) == Decoded(TailAt(LateIncident(detection, outcome), LATE_GROUPS, i, 19))
    {
      LateLogs(detection, outcome, i, 19);
      LateSeen(detection, outcome, i);
      LateTail(detection, outcome, i);
    }
  }

  lemma LateMessages(s: Situation, o: Outcome)
    requires s.status.Detected? && o.situationId == s.id
    ensures
      var live := [DetectedMessage(s), OutcomeMessage(o)];
      NoRecurrence(live, _ => s) && OutcomesFollow(live) && OneOutcomeEach(live)
  {
    var live := [DetectedMessage(s), OutcomeMessage(o)];
    assert Describes(live[0], s.id);
  }

  lemma LateReplay(detection: Message, outcome: Message)
    requires TopicOf(detection) == 0 && outcome.OutcomeMessage?
    ensures
      var r := ReplayOf(LateCourse(outcome).handed);
      TailFollows(r, [detection]) && !OutcomesReplayedWithIncident(r)
  {
    var r := ReplayOf(LateCourse(outcome).handed);
    assert r.outcomes == [outcome] && r.detected + r.diagnosed == [];
    assert outcome in r.outcomes && !Described(r.detected + r.diagnosed, outcome.outcome.situationId);
  }

  /**
   It does happen, in a rebuild without any fault or recurrence: detected and closed while the rebuild is
   under way, after the detections were paged and before the outcomes are. The rebuild goes as `LateCourse`
   says, and what it shows then differs from the live console, which saw the detection and then the outcome.
   */
  lemma RebuildCanLoseAnOutcome(s: Situation, o: Outcome, limits: Limits, max: nat)
    requires s.status.Detected? && o.situationId == s.id && limits.windowStart == ZERO && limits.maxEntries >= 1
    ensures
      var detection, outcome := DetectedMessage(s), OutcomeMessage(o);
      var scene, c := LateIncident(detection, outcome), LateCourse(outcome);
      var live, tail := [detection, outcome], [detection];
      && RebuiltBy(scene, limits, NEW_GROUPS, LATE_GROUPS, c, 19)
      && SeesAll(scene, 19, live) && SeesTails(scene, LATE_GROUPS, 19, tail)
      && NoRecurrence(live, _ => s) && OutcomesFollow(live) && OneOutcomeEach(live)
      && TailFollows(ReplayOf(c.handed), tail)
      && Fold(Fold(EMPTY, Decoded(Flat(c.handed)), max), tail, max) != Fold(EMPTY, live, max)
  {
    var detection, outcome := DetectedMessage(s), OutcomeMessage(o);
    var scene, c := LateIncident(detection, outcome), LateCourse(outcome);
    var live, tail := [detection, outcome], [detection];
    LateRebuild(detection, outcome, limits);
    LateViews(detection, outcome);
    LateMessages(s, o);
    LateReplay(detection, outcome);
    RebuildMatchesLive(scene, limits, NEW_GROUPS, LATE_GROUPS, c, 19, live, tail, _ => s, max);
  }
}
