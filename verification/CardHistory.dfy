/**
 What the console shows, told from the messages alone: which report, which diagnosis and which outcome a card
 repeats after any messages in any order, when it is finished, and what the feed of outcomes says.
*/
module CardHistory {
  import opened Prelude
  import opened Projection

  // ---------------------------------------------------------------- the messages about one incident

  /** A detection of the incident, or its diagnosis. */
  predicate Reports(m: Message, id: string) {
    match m
    case DetectedMessage(s) => s.id == id
    case DiagnosedMessage(d) => d.situation.id == id
    case _ => false
  }

  predicate Closes(m: Message, id: string) {
    m.OutcomeMessage? && m.outcome.situationId == id
  }

  function Reported(m: Message): Situation
    requires m.DetectedMessage? || m.DiagnosedMessage?
  {
    if m.DetectedMessage? then m.situation else m.diagnosis.situation
  }

  /** When the newest occurrence was first seen that the first `n` messages report. */
  function NewestSeen(ms: seq<Message>, n: nat, id: string): Option<int>
    requires n <= |ms|
  {
    if n == 0 then None
    else
      var before := NewestSeen(ms, n - 1, id);
      if !Reports(ms[n - 1], id) then before
      else
        var now := Reported(ms[n - 1]).firstSeen;
        Some(if before.None? then now else Max(before.value, now))
  }

  lemma {:induction false} NewestSeenIsGreatest(ms: seq<Message>, n: nat, id: string)
    requires n <= |ms|
    ensures forall i: nat :: i < n && Reports(ms[i], id) ==>
      NewestSeen(ms, n, id).Some? && Reported(ms[i]).firstSeen <= NewestSeen(ms, n, id).value
    ensures NewestSeen(ms, n, id).Some? ==>
      exists i: nat :: i < n && Reports(ms[i], id) && Reported(ms[i]).firstSeen == NewestSeen(ms, n, id).value
  {
    if n > 0 {
      NewestSeenIsGreatest(ms, n - 1, id);
    }
  }

  /** Message `i` is a report that was not late when it arrived. */
  predicate Accepted(ms: seq<Message>, i: nat, id: string) {
    && i < |ms| && Reports(ms[i], id)
    && (NewestSeen(ms, i, id).Some? ==> NewestSeen(ms, i, id).value <= Reported(ms[i]).firstSeen)
  }

  /** Message `j` is an outcome of an incident reported before, and up to `n` no newer occurrence was reported. */
  predicate Settles(ms: seq<Message>, n: nat, j: nat, id: string) {
    && j < n <= |ms| && Closes(ms[j], id)
    && NewestSeen(ms, j, id).Some? && NewestSeen(ms, n, id) == NewestSeen(ms, j, id)
  }

  ghost predicate Settled(ms: seq<Message>, n: nat, id: string) {
    exists j: nat :: Settles(ms, n, j, id)
  }

  /** Message `i` is the first report of the incident, or of a newer occurrence once the one before was settled. */
  ghost predicate Opens(ms: seq<Message>, i: nat, id: string) {
    && i < |ms| && Reports(ms[i], id)
    && (NewestSeen(ms, i, id).Some? ==>
          NewestSeen(ms, i, id).value < Reported(ms[i]).firstSeen && Settled(ms, i, id))
  }

  /** The situations arrive the way detection and diagnosis send them out. */
  ghost predicate SentOpen(ms: seq<Message>) {
    forall m :: m in ms && (m.DetectedMessage? || m.DiagnosedMessage?) ==>
      Reported(m).status in {Detected, Diagnosed, Acting}
  }

  // ---------------------------------------------------------------- the screen after the first n messages

  function ScreenAt(ms: seq<Message>, n: nat, max: nat): Screen
    requires n <= |ms|
  {
    if n == 0 then BLANK else Update(ScreenAt(ms, n - 1, max), ms[n - 1], max)
  }

  lemma {:induction false} ScreenAtIsProjection(ms: seq<Message>, front: seq<Message>, max: nat)
    requires front <= ms
    ensures ScreenAt(ms, |front|, max) == Project(BLANK, front, max)
  {
    if front != [] {
      ScreenAtIsProjection(ms, front[..|front| - 1], max);
    }
  }

  function CardsAt(ms: seq<Message>, n: nat, max: nat): map<string, Card>
    requires n <= |ms|
  {
    ScreenAt(ms, n, max).board.cards
  }

  function Seen(cards: map<string, Card>, id: string): Option<int> {
    if id in cards then Some(cards[id].firstSeen) else None
  }

  lemma SeenAfter(s: Screen, m: Message, max: nat, id: string)
    ensures
      var before, after := Seen(s.board.cards, id), Seen(Update(s, m, max).board.cards, id);
      after == if !Reports(m, id) then before
        else Some(if before.None? then Reported(m).firstSeen else Max(before.value, Reported(m).firstSeen))
  {
  }

  /** There is a card exactly if there was a report, and it shows the newest occurrence reported. */
  lemma {:induction false} CardShowsNewest(ms: seq<Message>, n: nat, max: nat, id: string)
    requires n <= |ms|
    ensures Seen(CardsAt(ms, n, max), id) == NewestSeen(ms, n, id)
  {
    if n > 0 {
      CardShowsNewest(ms, n - 1, max, id);
      SeenAfter(ScreenAt(ms, n - 1, max), ms[n - 1], max, id);
    }
  }

  /** A report was late exactly if the card showed a newer occurrence. */
  lemma AcceptedUnlessLate(ms: seq<Message>, n: nat, max: nat, id: string)
    requires n < |ms| && Reports(ms[n], id)
    ensures
      var cards := CardsAt(ms, n, max);
      Accepted(ms, n, id) <==> (id in cards ==> cards[id].firstSeen <= Reported(ms[n]).firstSeen)
  {
    CardShowsNewest(ms, n, max, id);
  }

  // ---------------------------------------------------------------- the outcome a card shows

  predicate Finished(status: Status) {
    status in {Resolved, Failed, NeedsAttention}
  }

  /** The card repeats this outcome. */
  predicate Tells(card: Card, o: Outcome) {
    && card.outcome == Some(OutcomeBlock(o.result, o.healthAfter, o.mode, o.steps, o.handling))
    && (card.status.Resolved? <==> o.result.Success?)
    && (card.status.Failed? <==> o.result.Failure? || o.result.RolledBack?)
    && (card.status.NeedsAttention? <==> o.result.EscalatedResult?)
    && card.lastActivity == o.ts && card.status in card.stages && card.stages[card.status] == o.ts
  }

  predicate IsOpen(card: Card) {
    card.status in {Detected, Diagnosed, Acting} && card.outcome.None?
  }

  /** The last outcome among those that settle the occurrence shown. */
  ghost predicate SettlesLast(ms: seq<Message>, n: nat, j: nat, id: string) {
    Settles(ms, n, j, id) && forall k: nat :: j < k < n ==> !Closes(ms[k], id)
  }

  lemma {:induction false} NewestSeenGrows(ms: seq<Message>, i: nat, n: nat, id: string)
    requires i <= n <= |ms| && NewestSeen(ms, i, id).Some?
    ensures NewestSeen(ms, n, id).Some? && NewestSeen(ms, i, id).value <= NewestSeen(ms, n, id).value
  {
    if i < n {
      NewestSeenGrows(ms, i, n - 1, id);
    }
  }

  /** The occurrence was settled, if at all, by a last outcome. */
  lemma {:induction false} SomeSettlesLast(ms: seq<Message>, n: nat, j: nat, id: string) returns (last: nat)
    requires Settles(ms, n, j, id)
    ensures SettlesLast(ms, n, last, id)
    decreases n - j
  {
    if k: nat :| j < k < n && Closes(ms[k], id) {
      NewestSeenGrows(ms, j, k, id);
      NewestSeenGrows(ms, k, n, id);
      last := SomeSettlesLast(ms, n, k, id);
    } else {
      last := j;
    }
  }

  lemma LastSettling(ms: seq<Message>, n: nat, id: string) returns (last: nat)
    requires Settled(ms, n, id)
    ensures SettlesLast(ms, n, last, id)
  {
    var j: nat :| Settles(ms, n, j, id);
    last := SomeSettlesLast(ms, n, j, id);
  }

  lemma OutcomeIsTold(s: Screen, m: Message, max: nat, id: string)
    requires id in s.board.cards && Closes(m, id)
    ensures id in Update(s, m, max).board.cards && Tells(Update(s, m, max).board.cards[id], m.outcome)
  {
  }

  lemma StillTold(s: Screen, m: Message, max: nat, id: string, o: Outcome)
    requires id in s.board.cards && Tells(s.board.cards[id], o) && !Closes(m, id)
    requires Reports(m, id) ==> Reported(m).firstSeen <= s.board.cards[id].firstSeen
    ensures id in Update(s, m, max).board.cards && Tells(Update(s, m, max).board.cards[id], o)
  {
  }

  lemma {:induction false} LastOutcomeIsTold(ms: seq<Message>, n: nat, max: nat, j: nat, id: string)
    requires SettlesLast(ms, n, j, id)
    ensures id in CardsAt(ms, n, max) && Tells(CardsAt(ms, n, max)[id], ms[j].outcome)
  {
    CardShowsNewest(ms, n - 1, max, id);
    if j == n - 1 {
      OutcomeIsTold(ScreenAt(ms, n - 1, max), ms[n - 1], max, id);
    } else {
      NewestSeenGrows(ms, j, n - 1, id);
      LastOutcomeIsTold(ms, n - 1, max, j, id);
      StillTold(ScreenAt(ms, n - 1, max), ms[n - 1], max, id, ms[j].outcome);
    }
  }

  lemma NewOccurrenceIsOpen(s: Screen, m: Message, max: nat, id: string)
    requires Reports(m, id) && Reported(m).status in {Detected, Diagnosed, Acting}
    requires id in s.board.cards ==>
      Finished(s.board.cards[id].status) && Reported(m).firstSeen > s.board.cards[id].firstSeen
    ensures id in Update(s, m, max).board.cards && IsOpen(Update(s, m, max).board.cards[id])
  {
  }

  lemma StaysOpen(s: Screen, m: Message, max: nat, id: string)
    requires id in s.board.cards ==> IsOpen(s.board.cards[id]) && !Closes(m, id)
    requires m.DetectedMessage? || m.DiagnosedMessage? ==> Reported(m).status in {Detected, Diagnosed, Acting}
    ensures id in Update(s, m, max).board.cards ==> IsOpen(Update(s, m, max).board.cards[id])
  {
  }

  lemma {:induction false} UnsettledIsOpen(ms: seq<Message>, n: nat, max: nat, id: string)
    requires n <= |ms| && SentOpen(ms) && !Settled(ms, n, id)
    ensures id in CardsAt(ms, n, max) ==> IsOpen(CardsAt(ms, n, max)[id])
  {
    if n > 0 {
      CardShowsNewest(ms, n - 1, max, id);
      assert ms[n - 1] in ms && !Settles(ms, n, n - 1, id);
      if Settled(ms, n - 1, id) {
        var last := LastSettling(ms, n - 1, id);
        assert !Settles(ms, n, last, id);
        LastOutcomeIsTold(ms, n - 1, max, last, id);
        NewOccurrenceIsOpen(ScreenAt(ms, n - 1, max), ms[n - 1], max, id);
      } else {
        UnsettledIsOpen(ms, n - 1, max, id);
        StaysOpen(ScreenAt(ms, n - 1, max), ms[n - 1], max, id);
      }
    }
  }

  /**
   A card is finished exactly if it has an outcome block, and exactly if an outcome settled the occurrence it shows.
   Then it repeats the last such outcome: block, status, time of activity and stage.
   */
  lemma FinishedIffSettled(ms: seq<Message>, n: nat, max: nat, id: string)
    requires n <= |ms| && SentOpen(ms) && id in CardsAt(ms, n, max)
    ensures
      var card := CardsAt(ms, n, max)[id];
      && (Finished(card.status) <==> card.outcome.Some?)
      && (card.outcome.Some? <==> Settled(ms, n, id))
      && (Settled(ms, n, id) ==> exists j: nat :: SettlesLast(ms, n, j, id) && Tells(card, ms[j].outcome))
  {
    if Settled(ms, n, id) {
      var last := LastSettling(ms, n, id);
      LastOutcomeIsTold(ms, n, max, last, id);
    } else {
      UnsettledIsOpen(ms, n, max, id);
    }
  }

  // ---------------------------------------------------------------- the report a card shows

  /** No report since message `i` was applied. */
  ghost predicate ReportedLast(ms: seq<Message>, n: nat, i: nat, id: string) {
    && i < n <= |ms| && Accepted(ms, i, id)
    && forall k: nat :: i < k < n && Reports(ms[k], id) ==> !Accepted(ms, k, id)
  }

  predicate Bears(m: Member, key: string) {
    key in m.labels && m.labels[key] != ""
  }

  predicate Nameless(m: Member) {
    !Bears(m, "service") && !Bears(m, "job") && !Bears(m, "instance")
  }

  /** Member `k` is the first that bears a label, and names the service: by its service, else its job or instance. */
  ghost predicate NamedBy(members: seq<Member>, k: nat, service: string) {
    && k < |members| && !Nameless(members[k]) && (forall i: nat :: i < k ==> Nameless(members[i]))
    && service ==
      if Bears(members[k], "service") then members[k].labels["service"]
      else if Bears(members[k], "job") then members[k].labels["job"]
      else members[k].labels["instance"]
  }

  ghost predicate NamesService(members: seq<Member>, service: string) {
    || (service == "unknown" && forall m :: m in members ==> Nameless(m))
    || exists k: nat :: NamedBy(members, k, service)
  }

  lemma {:induction false} ServiceIsNamed(members: seq<Member>)
    ensures NamesService(members, ServiceOf(members))
  {
    if members == [] {
    } else if Nameless(members[0]) {
      ServiceIsNamed(members[1..]);
      if k: nat :| NamedBy(members[1..], k, ServiceOf(members)) {
        assert NamedBy(members, k + 1, ServiceOf(members));
      } else {
        assert members == [members[0]] + members[1..];
      }
    } else {
      assert NamedBy(members, 0, ServiceOf(members));
    }
  }

  /** The card, and its title, repeat this report. */
  ghost predicate Repeats(card: Card, title: string, m: Message)
    requires m.DetectedMessage? || m.DiagnosedMessage?
  {
    var s := Reported(m);
    && card.signature == s.signature && card.handling == s.handling
    && card.severity == (if s.severity in {"critical", "high", "medium", "low"} then s.severity else "medium")
    && NamesService(s.members, card.service)
    && card.memberCount == |s.members| && card.members <= s.members && |card.members| == Min(20, |s.members|)
    && card.peakScore == s.peakScore && card.baseline == s.baseline
    && card.firstSeen == s.firstSeen && card.lastSeen == s.lastSeen
    && title == (
      if m.DetectedMessage? || m.diagnosis.hypotheses == [] then s.signature
      else m.diagnosis.hypotheses[0].description + " · " + card.service)
    && (m.DiagnosedMessage? ==>
          !card.status.Detected? && card.hypotheses == m.diagnosis.hypotheses && card.runbook == m.diagnosis.runbook)
  }

  ghost predicate Shown(s: Screen, id: string, m: Message) {
    && id in s.board.cards && id in s.titles && (m.DetectedMessage? || m.DiagnosedMessage?)
    && Repeats(s.board.cards[id], s.titles[id], m)
  }

  lemma DetectionShows(s: Screen, m: Message, max: nat, id: string)
    requires m.DetectedMessage? && Reports(m, id)
    requires id in s.board.cards ==> s.board.cards[id].firstSeen <= m.situation.firstSeen
    ensures Shown(Update(s, m, max), id, m)
  {
    ServiceIsNamed(m.situation.members);
  }

  lemma DiagnosisShows(s: Screen, m: Message, max: nat, id: string)
    requires m.DiagnosedMessage? && Reports(m, id)
    requires id in s.board.cards ==> s.board.cards[id].firstSeen <= m.diagnosis.situation.firstSeen
    ensures Shown(Update(s, m, max), id, m)
  {
    ServiceIsNamed(m.diagnosis.situation.members);
  }

  lemma StillShown(s: Screen, m: Message, max: nat, id: string, report: Message)
    requires Shown(s, id, report)
    requires Reports(m, id) ==> Reported(m).firstSeen < s.board.cards[id].firstSeen
    ensures Shown(Update(s, m, max), id, report)
  {
  }

  lemma AcceptedIsShown(ms: seq<Message>, n: nat, max: nat, id: string)
    requires n < |ms| && Accepted(ms, n, id)
    ensures Shown(ScreenAt(ms, n + 1, max), id, ms[n])
  {
    AcceptedUnlessLate(ms, n, max, id);
    if ms[n].DetectedMessage? {
      DetectionShows(ScreenAt(ms, n, max), ms[n], max, id);
    } else {
      DiagnosisShows(ScreenAt(ms, n, max), ms[n], max, id);
    }
  }

  lemma OthersLeaveItShown(ms: seq<Message>, n: nat, max: nat, id: string, report: Message)
    requires n < |ms| && !Accepted(ms, n, id) && Shown(ScreenAt(ms, n, max), id, report)
    ensures Shown(ScreenAt(ms, n + 1, max), id, report)
  {
    if Reports(ms[n], id) {
      AcceptedUnlessLate(ms, n, max, id);
    }
    StillShown(ScreenAt(ms, n, max), ms[n], max, id, report);
  }

  lemma StillReportedLast(ms: seq<Message>, n: nat, i: nat, id: string)
    requires i < n && ReportedLast(ms, n + 1, i, id)
    ensures ReportedLast(ms, n, i, id) && !Accepted(ms, n, id)
  {
  }

  /** Every card, and its title, repeat the last report of the incident that was not late. */
  lemma {:induction false} CardRepeatsLastReport(ms: seq<Message>, n: nat, max: nat, i: nat, id: string)
    requires ReportedLast(ms, n, i, id)
    ensures Shown(ScreenAt(ms, n, max), id, ms[i])
  {
    if i == n - 1 {
      AcceptedIsShown(ms, i, max, id);
    } else {
      StillReportedLast(ms, n - 1, i, id);
      CardRepeatsLastReport(ms, n - 1, max, i, id);
      OthersLeaveItShown(ms, n - 1, max, id, ms[i]);
    }
  }

  lemma {:induction false} SomeReportIsLast(ms: seq<Message>, n: nat, id: string) returns (i: nat)
    requires n <= |ms| && NewestSeen(ms, n, id).Some?
    ensures ReportedLast(ms, n, i, id)
  {
    if Accepted(ms, n - 1, id) {
      i := n - 1;
    } else {
      i := SomeReportIsLast(ms, n - 1, id);
    }
  }

  /** There is a card exactly if the incident was reported, and then it repeats the last report that was not late. */
  lemma CardIffReported(ms: seq<Message>, n: nat, max: nat, id: string)
    requires n <= |ms|
    ensures id in CardsAt(ms, n, max) <==> exists i: nat :: i < n && Reports(ms[i], id)
    ensures id in CardsAt(ms, n, max) ==>
      exists i: nat :: ReportedLast(ms, n, i, id) && Shown(ScreenAt(ms, n, max), id, ms[i])
  {
    CardShowsNewest(ms, n, max, id);
    NewestSeenIsGreatest(ms, n, id);
    if id in CardsAt(ms, n, max) {
      var i := SomeReportIsLast(ms, n, id);
      CardRepeatsLastReport(ms, n, max, i, id);
    }
  }

  // ---------------------------------------------------------------- what a card keeps of its occurrence

  /** The last report that opened an occurrence. */
  ghost predicate OpenedLast(ms: seq<Message>, n: nat, i: nat, id: string) {
    i < n <= |ms| && Opens(ms, i, id) && forall k: nat :: i < k < n ==> !Opens(ms, k, id)
  }

  predicate Diagnoses(ms: seq<Message>, i: nat, id: string) {
    Accepted(ms, i, id) && ms[i].DiagnosedMessage?
  }

  /** The last diagnosis applied from message `o` on, if there was one. */
  function LastDiagnosis(ms: seq<Message>, o: nat, n: nat, id: string): Option<Diagnosis>
    requires n <= |ms|
  {
    if n <= o then None
    else if Diagnoses(ms, n - 1, id) then Some(ms[n - 1].diagnosis)
    else LastDiagnosis(ms, o, n - 1, id)
  }

  /** The card's timeline and hypotheses are those of one occurrence: its opening, and its last diagnosis. */
  predicate Keeps(card: Card, opening: Situation, d: Option<Diagnosis>) {
    && Detected in card.stages && card.stages[Detected] == opening.firstSeen
    && (card.outcome.None? ==> card.lastActivity == opening.firstSeen)
    && match d
       case None => card.hypotheses == [] && card.runbook == None && Diagnosed !in card.stages
       case Some(diagnosis) =>
         card.hypotheses == diagnosis.hypotheses && card.runbook == diagnosis.runbook &&
         Diagnosed in card.stages && card.stages[Diagnosed] == diagnosis.situation.lastSeen
  }

  function NextDiagnosis(d: Option<Diagnosis>, m: Message): Option<Diagnosis> {
    if m.DiagnosedMessage? then Some(m.diagnosis) else d
  }

  lemma OpeningIsKept(s: Screen, m: Message, max: nat, id: string)
    requires Reports(m, id)
    requires id in s.board.cards ==>
      Finished(s.board.cards[id].status) && Reported(m).firstSeen > s.board.cards[id].firstSeen
    ensures
      var cards := Update(s, m, max).board.cards;
      id in cards && Keeps(cards[id], Reported(m), NextDiagnosis(None, m))
  {
  }

  lemma OccurrenceIsKept(s: Screen, m: Message, max: nat, id: string, opening: Situation, d: Option<Diagnosis>)
    requires id in s.board.cards && Keeps(s.board.cards[id], opening, d)
    requires Reports(m, id) && Finished(s.board.cards[id].status) ==>
      Reported(m).firstSeen <= s.board.cards[id].firstSeen
    ensures
      var cards := Update(s, m, max).board.cards;
      var applied := Reports(m, id) && Reported(m).firstSeen >= s.board.cards[id].firstSeen;
      id in cards && Keeps(cards[id], opening, if applied then NextDiagnosis(d, m) else d)
  {
  }

  lemma {:induction false} OpeningExists(ms: seq<Message>, n: nat, id: string) returns (o: nat)
    requires n <= |ms| && NewestSeen(ms, n, id).Some?
    ensures OpenedLast(ms, n, o, id)
  {
    if Opens(ms, n - 1, id) {
      o := n - 1;
    } else {
      o := OpeningExists(ms, n - 1, id);
    }
  }

  lemma NewOpeningIsKept(ms: seq<Message>, n: nat, max: nat, id: string)
    requires SentOpen(ms) && Opens(ms, n, id)
    ensures id in CardsAt(ms, n + 1, max)
    ensures Keeps(CardsAt(ms, n + 1, max)[id], Reported(ms[n]), NextDiagnosis(None, ms[n]))
  {
    CardShowsNewest(ms, n, max, id);
    if id in CardsAt(ms, n, max) {
      FinishedIffSettled(ms, n, max, id);
    }
    OpeningIsKept(ScreenAt(ms, n, max), ms[n], max, id);
  }

  lemma NoNewOccurrence(ms: seq<Message>, n: nat, max: nat, id: string)
    requires n < |ms| && SentOpen(ms) && !Opens(ms, n, id) && id in CardsAt(ms, n, max)
    requires Reports(ms[n], id) && Finished(CardsAt(ms, n, max)[id].status)
    ensures Reported(ms[n]).firstSeen <= CardsAt(ms, n, max)[id].firstSeen
  {
    CardShowsNewest(ms, n, max, id);
    FinishedIffSettled(ms, n, max, id);
  }

  lemma SameOccurrenceIsKept(ms: seq<Message>, n: nat, max: nat, id: string, opening: Situation, d: Option<Diagnosis>)
    requires n < |ms| && SentOpen(ms) && !Opens(ms, n, id)
    requires id in CardsAt(ms, n, max) && Keeps(CardsAt(ms, n, max)[id], opening, d)
    ensures id in CardsAt(ms, n + 1, max)
    ensures Keeps(CardsAt(ms, n + 1, max)[id], opening, if Accepted(ms, n, id) then NextDiagnosis(d, ms[n]) else d)
  {
    CardShowsNewest(ms, n, max, id);
    if Reports(ms[n], id) && Finished(CardsAt(ms, n, max)[id].status) {
      NoNewOccurrence(ms, n, max, id);
    }
    OccurrenceIsKept(ScreenAt(ms, n, max), ms[n], max, id, opening, d);
  }

  lemma {:induction false} LastOpeningIsKept(ms: seq<Message>, n: nat, max: nat, o: nat, id: string)
    requires SentOpen(ms) && OpenedLast(ms, n, o, id)
    ensures id in CardsAt(ms, n, max)
    ensures Keeps(CardsAt(ms, n, max)[id], Reported(ms[o]), LastDiagnosis(ms, o, n, id))
  {
    if o == n - 1 {
      NewOpeningIsKept(ms, o, max, id);
    } else {
      LastOpeningIsKept(ms, n - 1, max, o, id);
      SameOccurrenceIsKept(ms, n - 1, max, id, Reported(ms[o]), LastDiagnosis(ms, o, n - 1, id));
    }
  }

  /**
   What a card keeps belongs to the occurrence it shows: its timeline starts where that occurrence was opened, and
   its hypotheses are those of the last diagnosis since, if any; nothing of the occurrences before is left.
   */
  lemma CardKeepsItsOccurrence(ms: seq<Message>, n: nat, max: nat, id: string)
    requires n <= |ms| && SentOpen(ms) && id in CardsAt(ms, n, max)
    ensures exists o: nat ::
      OpenedLast(ms, n, o, id) && Keeps(CardsAt(ms, n, max)[id], Reported(ms[o]), LastDiagnosis(ms, o, n, id))
  {
    CardShowsNewest(ms, n, max, id);
    var o := OpeningExists(ms, n, id);
    LastOpeningIsKept(ms, n, max, o, id);
  }

  /** A report sets the status, unless the card already shows that occurrence further along than detected. */
  lemma StatusAfterReport(ms: seq<Message>, n: nat, max: nat, id: string)
    requires n < |ms| && Accepted(ms, n, id)
    ensures id in CardsAt(ms, n + 1, max)
    ensures
      var before, now := CardsAt(ms, n, max), CardsAt(ms, n + 1, max);
      var known := id in before && before[id].firstSeen == Reported(ms[n]).firstSeen && !before[id].status.Detected?;
      var reported := Reported(ms[n]).status;
      now[id].status ==
        if known then before[id].status
        else if reported.Detected? && ms[n].DiagnosedMessage? then Diagnosed
        else reported
  {
    CardShowsNewest(ms, n, max, id);
  }

  // ---------------------------------------------------------------- the feed of outcomes

  /** Where the outcomes lie, newest first. */
  function Feed(ms: seq<Message>, n: nat): seq<nat>
    requires n <= |ms|
    ensures forall i :: i in Feed(ms, n) ==> i < n && ms[i].OutcomeMessage?
  {
    if n == 0 then []
    else if ms[n - 1].OutcomeMessage? then [n - 1] + Feed(ms, n - 1)
    else Feed(ms, n - 1)
  }

  function SuppressedCount(ms: seq<Message>, n: nat): nat
    requires n <= |ms|
  {
    if n == 0 then 0 else SuppressedCount(ms, n - 1) + if ms[n - 1].SuppressedMessage? then 1 else 0
  }

  /**
   The row repeats the outcome. The service is that of the incident's card when it arrived; the time to resolve runs
   from the newest occurrence reported by then, is given for successes only, and never negative.
   */
  ghost predicate RowTells(ms: seq<Message>, max: nat, i: nat, row: OutcomeRow) {
    && i < |ms| && ms[i].OutcomeMessage?
    && var o, since, cards := ms[i].outcome, NewestSeen(ms, i, ms[i].outcome.situationId), CardsAt(ms, i, max);
    && row.situationId == o.situationId && row.playbookId == o.playbookId && row.result == o.result
    && row.reason == o.healthAfter && row.ts == o.ts
    && row.hitlMode == o.hitlMode && row.mode == o.mode && row.handling == o.handling
    && row.service == (if o.situationId in cards then cards[o.situationId].service else "unknown")
    && (row.mttr.Some? <==> since.Some? && o.result.Success? && since.value <= o.ts)
    && (row.mttr.Some? ==> row.mttr.value == o.ts - since.value)
  }

  ghost predicate RowsTell(ms: seq<Message>, max: nat, feed: seq<nat>, rows: seq<OutcomeRow>) {
    |rows| == Min(max, |feed|) && forall r :: 0 <= r < |rows| ==> RowTells(ms, max, feed[r], rows[r])
  }

  lemma NewRowTells(ms: seq<Message>, max: nat, i: nat)
    requires i < |ms| && ms[i].OutcomeMessage?
    ensures RowTells(ms, max, i, RowOf(CardsAt(ms, i + 1, max), ms[i].outcome))
  {
    CardShowsNewest(ms, i, max, ms[i].outcome.situationId);
  }

  lemma RowsTellOnTop(ms: seq<Message>, max: nat, feed: seq<nat>, rows: seq<OutcomeRow>, i: nat, row: OutcomeRow)
    requires RowsTell(ms, max, feed, rows) && RowTells(ms, max, i, row)
    ensures RowsTell(ms, max, [i] + feed, Capped([row] + rows, max))
  {
    var longer := Capped([row] + rows, max);
    forall r | 0 <= r < |longer| ensures RowTells(ms, max, ([i] + feed)[r], longer[r]) {
      assert r > 0 ==> longer[r] == rows[r - 1] && ([i] + feed)[r] == feed[r - 1];
    }
  }

  lemma TopRow(s: Screen, m: Message, max: nat)
    ensures
      var after := Update(s, m, max).board;
      after.outcomes ==
        if m.OutcomeMessage? then Capped([RowOf(after.cards, m.outcome)] + s.board.outcomes, max)
        else s.board.outcomes
  {
  }

  /** The feed shows the last `max` outcomes, newest first, each in its own row. */
  lemma {:induction false} FeedShowsLatest(ms: seq<Message>, n: nat, max: nat)
    requires n <= |ms|
    ensures RowsTell(ms, max, Feed(ms, n), ScreenAt(ms, n, max).board.outcomes)
  {
    if n > 0 {
      FeedShowsLatest(ms, n - 1, max);
      var before := ScreenAt(ms, n - 1, max);
      TopRow(before, ms[n - 1], max);
      if ms[n - 1].OutcomeMessage? {
        NewRowTells(ms, max, n - 1);
        RowsTellOnTop(ms, max, Feed(ms, n - 1), before.board.outcomes, n - 1,
          RowOf(CardsAt(ms, n, max), ms[n - 1].outcome));
      }
    }
  }

  lemma {:induction false} CounterCountsSuppressed(ms: seq<Message>, n: nat, max: nat)
    requires n <= |ms|
    ensures ScreenAt(ms, n, max).board.suppressed == SuppressedCount(ms, n)
  {
    if n > 0 {
      CounterCountsSuppressed(ms, n - 1, max);
    }
  }
}
