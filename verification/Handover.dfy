/**
 What the takeover of the groups does, command by command, and what a console sees of it: which entries
 reach the shadow or the live tail, and when a rebuild that returns no model has left everything as it was.
*/
module Handovers {
  import opened Prelude
  import opened Projection
  import opened Streams
  import opened Rebuild

  // ---------------------------------------------------------------- replay and tail

  /** Where the group stands after the handover. */
  function GroupAfter(group: Option<Id>, handed: seq<Entry>): Id {
    var pos := if group.Some? then group.value else ZERO;
    if handed != [] && Before(pos, handed[|handed| - 1].id) then handed[|handed| - 1].id else pos
  }

  /** One page of pending entries is acked; the rest stays. */
  function Unacked(pending: seq<Id>): seq<Id> {
    pending[Min(1000, |pending|)..]
  }

  /** What a rebuild owes: all of the window, and all that the group has not been handed. */
  lemma OwedIff(entries: seq<Entry>, group: Option<Id>, windowStart: Id, e: Entry)
    ensures e in Owed(entries, group, windowStart) <==>
      e in entries && (!Before(e.id, windowStart) || (group.Some? && Before(group.value, e.id)))
  {
    RangeMembers(entries, StartCursor(group, windowStart));
  }

  ghost predicate AllBefore(entries: seq<Entry>, windowStart: Id) {
    forall e :: e in entries ==> Before(e.id, windowStart)
  }

  ghost predicate SomeBefore(entries: seq<Entry>, windowStart: Id) {
    exists e :: e in entries && Before(e.id, windowStart)
  }

  /** The tail, in the usual case, continues exactly where the replay ended. */
  lemma TailContinues(entries: seq<Entry>, more: seq<Entry>, last: Id, group: Option<Id>, windowStart: Id)
    requires Increasing(entries + more) && Bounded(entries, last)
    requires forall e :: e in more ==> Before(last, e.id)
    requires group.Some? ==> !Before(last, group.value)
    requires group.Some? || Owed(entries, group, windowStart) != []
    ensures
      var handed := Owed(entries, group, windowStart);
      handed + Range(entries + more, After(GroupAfter(group, handed))) == Owed(entries + more, group, windowStart)
  {
    var start := StartCursor(group, windowStart);
    var handed := Owed(entries, group, windowStart);
    var pos := GroupAfter(group, handed);
    RangeMembers(entries, start);
    RangeAppend(entries, more, start);
    RangeAppend(entries, more, After(pos));
    if handed != [] {
      var lastHanded := handed[|handed| - 1];
      assert lastHanded in handed && lastHanded in entries;
      RangeAll(more, start);
      RangeAll(more, After(pos));
      assert forall i :: 0 <= i < |entries| ==> (entries + more)[i] == entries[i];
      NothingAfterLast(entries, start, pos);
    } else if start.At? {
      RangeAll(more, start);
      RangeAll(more, After(pos));
      forall e | e in entries ensures !Admits(After(pos), e.id) {
        assert e !in handed;
      }
      RangeNone(entries, After(pos));
    }
  }

  /**
   After the handover, what was replayed followed by what the live tail will deliver is exactly what is
   owed, if and only if it is not the case that there was no group, all of the stream lay before the
   window, and something still does: then the tail starts at the very beginning and repeats older history.
   */
  lemma HandedOverExactly(entries: seq<Entry>, more: seq<Entry>, last: Id, group: Option<Id>, windowStart: Id)
    requires Increasing(entries + more) && Bounded(entries, last)
    requires forall e :: e in more ==> Before(last, e.id)
    requires forall e :: e in entries + more ==> Before(ZERO, e.id)
    requires group.Some? ==> !Before(last, group.value)
    ensures
      var handed := Owed(entries, group, windowStart);
      var tail := Range(entries + more, After(GroupAfter(group, handed)));
      && (handed + tail == Owed(entries + more, group, windowStart) <==>
            !(group.None? && AllBefore(entries, windowStart) && SomeBefore(entries + more, windowStart)))
      && (group.None? && AllBefore(entries, windowStart) ==> handed == [] && tail == entries + more)
  {
    var handed := Owed(entries, group, windowStart);
    RangeMembers(entries, StartCursor(group, windowStart));
    if group.None? && AllBefore(entries, windowStart) {
      TailRepeats(entries, more, windowStart);
    } else {
      if group.None? {
        var e :| e in entries && !Before(e.id, windowStart);
        assert e in handed;
      }
      TailContinues(entries, more, last, group, windowStart);
    }
  }

  lemma TailRepeats(entries: seq<Entry>, more: seq<Entry>, windowStart: Id)
    requires AllBefore(entries, windowStart) && forall e :: e in entries + more ==> Before(ZERO, e.id)
    ensures
      var tail := Range(entries + more, After(GroupAfter(None, [])));
      && Owed(entries, None, windowStart) == [] && tail == entries + more
      && ([] + tail == Owed(entries + more, None, windowStart) <==> !SomeBefore(entries + more, windowStart))
  {
    RangeNone(entries, At(windowStart));
    RangeAll(entries + more, After(ZERO));
    WholeIffNoneBefore(entries + more, windowStart);
    assert [] + (entries + more) == entries + more;
  }

  lemma WholeIffNoneBefore(entries: seq<Entry>, windowStart: Id)
    ensures Range(entries, At(windowStart)) == entries <==> !SomeBefore(entries, windowStart)
  {
    RangeMembers(entries, At(windowStart));
    if SomeBefore(entries, windowStart) {
      var e :| e in entries && Before(e.id, windowStart);
      assert e !in Range(entries, At(windowStart));
    } else {
      RangeAll(entries, At(windowStart));
    }
  }

  lemma NothingAfterLast(entries: seq<Entry>, start: Cursor, pos: Id)
    requires Increasing(entries) && Range(entries, start) != []
    requires !Before(pos, Range(entries, start)[|Range(entries, start)| - 1].id)
    ensures Range(entries, After(pos)) == []
  {
    var handed := Range(entries, start);
    NextPage(entries, start, |handed|);
    RangeMembers(entries, After(handed[|handed| - 1].id));
    forall e | e in entries ensures !Admits(After(pos), e.id) {
      assert e !in Range(entries, After(handed[|handed| - 1].id));
    }
    RangeNone(entries, After(pos));
  }

  /**
   The handover acks pending entries as if the replay had shown them. It has shown exactly those inside
   the window: an entry the live console had been handed but not finished with is dropped if it is older.
   */
  lemma PendingIsShownIffInWindow(entries: seq<Entry>, group: Id, windowStart: Id, e: Entry)
    requires e in entries && !Before(group, e.id)
    ensures e in Owed(entries, Some(group), windowStart) <==> !Before(e.id, windowStart)
  {
    RangeMembers(entries, StartCursor(Some(group), windowStart));
  }

  /** Such an entry: with the group at `late`, the entry before it is acked and never shown. */
  lemma PendingCanBeDropped(early: Entry, late: Entry)
    requires Before(ZERO, early.id) && Before(early.id, late.id)
    ensures early !in Owed([early, late], Some(late.id), late.id) && late in Owed([early, late], Some(late.id), late.id)
  {
    PendingIsShownIffInWindow([early, late], late.id, late.id, early);
    PendingIsShownIffInWindow([early, late], late.id, late.id, late);
  }

  // ---------------------------------------------------------------- one takeover

  /** Where a group stands; one that does not exist yet will be created before all entries. */
  function Stands(position: Option<Id>): Id {
    if position.Some? then position.value else ZERO
  }

  /** Looking from call `k`, the group is found to need moving to `last`. */
  predicate FoundBehind(scene: Scene, group: Group, last: Id, k: nat) {
    !Lost(scene.FaultAt(k)) && ToMove(if scene.FaultAt(k).Fine? then group.position else None, last)
  }

  /** The command that sets the group's position is sent and arrives. */
  predicate SetArrives(scene: Scene, group: Group, handed: seq<Entry>, k: nat) {
    && handed != [] && scene.FaultAt(k).Fine?
    && FoundBehind(scene, Created(group), handed[|handed| - 1].id, k + 1) && Arrives(scene.FaultAt(k + 2))
  }

  /** The call that lists the pending entries once the group has been looked at from call `k`, if it is made. */
  function ListAfterLook(scene: Scene, group: Group, last: Id, k: nat): Option<nat> {
    if Lost(scene.FaultAt(k)) then None
    else if !FoundBehind(scene, group, last, k) then Some(k + 1)
    else if scene.FaultAt(k + 1).Fine? then Some(k + 2)
    else None
  }

  /** The call of a takeover that lists the pending entries, if it is made. */
  function ListCall(scene: Scene, group: Group, handed: seq<Entry>, k: nat): Option<nat> {
    if !scene.FaultAt(k).Fine? then None
    else if handed == [] then Some(k + 1)
    else ListAfterLook(scene, Created(group), handed[|handed| - 1].id, k + 1)
  }

  /** How many of `n` acks, sent one after another from call `k` until one fails, arrive. */
  function Arriving(scene: Scene, k: nat, n: nat): (m: nat)
    ensures m <= n
    decreases n
  {
    if n == 0 then 0
    else (if Arrives(scene.FaultAt(k)) then 1 else 0) +
         if scene.FaultAt(k).Fine? then Arriving(scene, k + 1, n - 1) else 0
  }

  /** How many acks of a page of `n` pending entries arrive, if call `list` lists them. */
  function AcksAfter(scene: Scene, list: Option<nat>, n: nat): (m: nat)
    ensures m <= n
  {
    if list.None? || !scene.FaultAt(list.value).Fine? then 0
    else Arriving(scene, list.value + 1, Min(PENDING_PAGE, n))
  }

  /** How many acks of a takeover arrive. */
  function AcksArrived(scene: Scene, group: Group, handed: seq<Entry>, k: nat): (m: nat)
    ensures m <= |group.pending|
  {
    AcksAfter(scene, ListCall(scene, group, handed, k), |group.pending|)
  }

  lemma {:induction false} AckEachTakesPrefix(scene: Scene, group: Group, n: nat, k: nat)
    requires n <= |group.pending|
    ensures AckEach(scene, group, group.pending[..n], k).group ==
      group.(pending := group.pending[Arriving(scene, k, n)..])
    decreases n
  {
    if n > 0 && scene.FaultAt(k).Fine? {
      var next := group.(pending := group.pending[1..]);
      assert group.pending[..n][1..] == next.pending[..n - 1];
      AckEachTakesPrefix(scene, next, n - 1, k + 1);
    }
  }

  lemma PageTakesPrefix(scene: Scene, group: Group, k: nat)
    ensures AckPending(scene, group, k).group ==
      group.(pending := group.pending[AcksAfter(scene, Some(k), |group.pending|)..])
  {
    var n := Min(PENDING_PAGE, |group.pending|);
    assert group.pending[..n] == Capped(group.pending, PENDING_PAGE);
    AckEachTakesPrefix(scene, group, n, k + 1);
  }

  lemma LookByCommands(scene: Scene, group: Group, last: Id, k: nat)
    ensures
      var m := AcksAfter(scene, ListAfterLook(scene, group, last, k), |group.pending|);
      MoveGroup(scene, group, last, k).group == Group(
        if FoundBehind(scene, group, last, k) && Arrives(scene.FaultAt(k + 1)) then Some(last) else group.position,
        group.pending[m..])
  {
    PageTakesPrefix(scene, group, k + 1);
    PageTakesPrefix(scene, group.(position := Some(last)), k + 2);
  }

  /** The group stands there, and that many pending entries are gone from the front. */
  predicate Became(after: Group, before: Group, position: Option<Id>, acked: nat) {
    acked <= |before.pending| && after == Group(position, before.pending[acked..])
  }

  lemma NothingReadByCommands(scene: Scene, group: Group, k: nat)
    requires scene.FaultAt(k).Fine?
    ensures Became(TookOver(scene, group, [], k).group, group, Created(group).position,
      AcksArrived(scene, group, [], k))
  {
    PageTakesPrefix(scene, Created(group), k + 1);
  }

  lemma ReadByCommands(scene: Scene, group: Group, handed: seq<Entry>, k: nat)
    requires scene.FaultAt(k).Fine? && handed != []
    ensures Became(TookOver(scene, group, handed, k).group, group,
      if SetArrives(scene, group, handed, k) then Some(handed[|handed| - 1].id) else Created(group).position,
      AcksArrived(scene, group, handed, k))
  {
    LookByCommands(scene, Created(group), handed[|handed| - 1].id, k + 1);
  }

  /**
   Exactly what a takeover does to the group, by which commands arrive: it stands at the last replayed entry
   if the command setting it arrives, and otherwise where it stood; and off the front of its pending list
   are as many entries as acks arrive.
   */
  lemma TakeoverByCommands(scene: Scene, group: Group, handed: seq<Entry>, k: nat)
    ensures
      var after := TookOver(scene, group, handed, k).group;
      && Stands(after.position) ==
           (if SetArrives(scene, group, handed, k) then handed[|handed| - 1].id else Stands(group.position))
      && after.pending == group.pending[AcksArrived(scene, group, handed, k)..]
      && (after.position.None? <==> group.position.None? && !Arrives(scene.FaultAt(k)))
  {
    if !scene.FaultAt(k).Fine? {
      assert AcksArrived(scene, group, handed, k) == 0;
    } else if handed == [] {
      NothingReadByCommands(scene, group, k);
    } else {
      ReadByCommands(scene, group, handed, k);
    }
  }

  /** A group is moved back exactly if asking for its position was refused and it stood further on. */
  lemma MovedBackIffRefused(scene: Scene, group: Group, handed: seq<Entry>, k: nat)
    requires handed != []
    ensures Before(Stands(TookOver(scene, group, handed, k).group.position), Stands(group.position)) <==>
      && scene.FaultAt(k).Fine? && scene.FaultAt(k + 1).Refused? && Arrives(scene.FaultAt(k + 2))
      && Before(handed[|handed| - 1].id, Stands(group.position))
  {
    TakeoverByCommands(scene, group, handed, k);
  }

  /** The calls from `k` on were made one after another until one got no reply, and `h` ended accordingly. */
  ghost predicate StopsWhenLost(scene: Scene, k: nat, h: Handover) {
    && k <= h.calls
    && (forall m: nat :: k <= m < h.calls - 1 ==> !Lost(scene.FaultAt(m)))
    && (h.ending.Cut? <==> k < h.calls && Lost(scene.FaultAt(h.calls - 1)))
  }

  lemma {:induction false} AckEachStops(scene: Scene, group: Group, ids: seq<Id>, k: nat)
    ensures StopsWhenLost(scene, k, AckEach(scene, group, ids, k))
    decreases |ids|
  {
    if ids != [] && scene.FaultAt(k).Fine? {
      AckEachStops(scene, group.(pending := Acked(group.pending, ids[0])), ids[1..], k + 1);
    }
  }

  lemma PageStops(scene: Scene, group: Group, k: nat)
    ensures k < AckPending(scene, group, k).calls && StopsWhenLost(scene, k, AckPending(scene, group, k))
  {
    AckEachStops(scene, group, Capped(group.pending, PENDING_PAGE), k + 1);
  }

  lemma LookStops(scene: Scene, group: Group, last: Id, k: nat)
    ensures k < MoveGroup(scene, group, last, k).calls && StopsWhenLost(scene, k, MoveGroup(scene, group, last, k))
  {
    PageStops(scene, group, k + 1);
    PageStops(scene, group.(position := Some(last)), k + 2);
  }

  /** A takeover is cut off exactly if one of its commands gets no reply, and that is then its last. */
  lemma TakeoverStops(scene: Scene, group: Group, handed: seq<Entry>, k: nat)
    ensures k < TookOver(scene, group, handed, k).calls && StopsWhenLost(scene, k, TookOver(scene, group, handed, k))
  {
    PageStops(scene, Created(group), k + 1);
    if handed != [] {
      LookStops(scene, Created(group), handed[|handed| - 1].id, k + 1);
    }
  }

  lemma {:induction false} AckEachClean(scene: Scene, group: Group, n: nat, k: nat)
    requires n <= |group.pending|
    requires AllFine(scene, k, AckEach(scene, group, group.pending[..n], k).calls)
    ensures AckEach(scene, group, group.pending[..n], k) ==
      Handover(group.(pending := group.pending[n..]), k + n, Done)
    decreases n
  {
    AckEachStops(scene, group, group.pending[..n], k);
    if n > 0 {
      assert scene.FaultAt(k).Fine? by { FirstIsFine(scene, group, group.pending[..n], k); }
      var next := group.(pending := group.pending[1..]);
      assert group.pending[..n][1..] == next.pending[..n - 1];
      AckEachClean(scene, next, n - 1, k + 1);
    }
  }

  lemma FirstIsFine(scene: Scene, group: Group, ids: seq<Id>, k: nat)
    requires ids != [] && AllFine(scene, k, AckEach(scene, group, ids, k).calls)
    ensures scene.FaultAt(k).Fine?
  {
    AckEachStops(scene, group.(pending := Acked(group.pending, ids[0])), ids[1..], k + 1);
    assert k < AckEach(scene, group, ids, k).calls;
  }

  lemma PageClean(scene: Scene, group: Group, k: nat)
    requires AllFine(scene, k, AckPending(scene, group, k).calls)
    ensures
      var h := AckPending(scene, group, k);
      h.ending.Done? && h.group == group.(pending := Unacked(group.pending))
  {
    PageStops(scene, group, k);
    var n := Min(PENDING_PAGE, |group.pending|);
    assert group.pending[..n] == Capped(group.pending, PENDING_PAGE);
    AckEachClean(scene, group, n, k + 1);
  }

  lemma LookClean(scene: Scene, group: Group, last: Id, k: nat)
    requires AllFine(scene, k, MoveGroup(scene, group, last, k).calls)
    ensures
      var h := MoveGroup(scene, group, last, k);
      h.ending.Done? &&
      h.group == Group(if ToMove(group.position, last) then Some(last) else group.position, Unacked(group.pending))
  {
    LookStops(scene, group, last, k);
    if !ToMove(group.position, last) {
      PageClean(scene, group, k + 1);
    } else {
      assert scene.FaultAt(k).Fine?;
      PageStops(scene, group.(position := Some(last)), k + 2);
      PageClean(scene, group.(position := Some(last)), k + 2);
    }
  }

  /** When every command goes through, the group moves forward or stays, and one page of pending entries is acked. */
  lemma CleanTakeover(scene: Scene, group: Group, handed: seq<Entry>, k: nat)
    requires AllFine(scene, k, TookOver(scene, group, handed, k).calls)
    ensures
      var h := TookOver(scene, group, handed, k);
      h.ending.Done? && h.group == Group(Some(GroupAfter(group.position, handed)), Unacked(group.pending))
  {
    TakeoverStops(scene, group, handed, k);
    assert scene.FaultAt(k).Fine?;
    if handed == [] {
      PageClean(scene, Created(group), k + 1);
    } else {
      LookClean(scene, Created(group), handed[|handed| - 1].id, k + 1);
    }
  }

  // ---------------------------------------------------------------- without a model

  /** A console that starts empty finds this group as if no rebuild had been tried. */
  predicate Untouched(before: Group, after: Group) {
    Stands(after.position) == Stands(before.position) && after.pending == before.pending
  }

  /** A takeover from call `k` on changes what the live tail will deliver, or acks something. */
  predicate Touches(scene: Scene, group: Group, handed: seq<Entry>, k: nat) {
    || (SetArrives(scene, group, handed, k) && handed[|handed| - 1].id != Stands(group.position))
    || AcksArrived(scene, group, handed, k) > 0
  }

  lemma UntouchedIff(scene: Scene, group: Group, handed: seq<Entry>, k: nat)
    ensures Untouched(group, TookOver(scene, group, handed, k).group) <==> !Touches(scene, group, handed, k)
  {
    TakeoverByCommands(scene, group, handed, k);
  }

  /** The takeover of topic `i`, which this rebuild came to, touched its group. */
  ghost predicate TouchedAt(scene: Scene, groups: seq<Group>, c: Course, i: nat) {
    && i < |c.steps| <= |groups| && |groups| == |c.handed|
    && Touches(scene, groups[i], c.handed[i], StartOf(StartOf(c.from, c.ends, |c.ends|), c.steps, i))
  }

  ghost predicate PlainColdStart(groups: seq<Group>, groups': seq<Group>) {
    && |groups| == |groups'|
    && forall i: nat :: i < |groups| ==> Untouched(groups[i], groups'[i])
  }

  lemma GroupUntouchedIff(scene: Scene, limits: Limits, groups: seq<Group>, groups': seq<Group>, c: Course, i: nat)
    requires IsCutOff(scene, limits, groups, groups', c) && i < |groups|
    ensures Untouched(groups[i], groups'[i]) <==> !TouchedAt(scene, groups, c, i)
  {
    var from := StartOf(c.from, c.ends, |c.ends|);
    if i < |c.steps| {
      assert Ended(scene, groups, groups', c.handed, from, c.steps, i, i == |c.steps| - 1);
      UntouchedIff(scene, groups[i], c.handed[i], StartOf(from, c.steps, i));
    }
  }

  /**
   A rebuild that returns no model leaves a plain cold start behind if and only if no takeover it came to
   had a command arrive that moves a group or acks an entry.
   */
  lemma PlainColdStartIff(scene: Scene, limits: Limits, groups: seq<Group>, groups': seq<Group>, c: Course)
    requires GivesUp(scene, limits, groups, groups', c) || IsCutOff(scene, limits, groups, groups', c)
    ensures PlainColdStart(groups, groups') <==> !exists i :: TouchedAt(scene, groups, c, i)
  {
    if IsCutOff(scene, limits, groups, groups', c) {
      forall i: nat | i < |groups| ensures Untouched(groups[i], groups'[i]) <==> !TouchedAt(scene, groups, c, i) {
        GroupUntouchedIff(scene, limits, groups, groups', c, i);
      }
    }
  }

  /** What was replayed after the old position is no longer in the tail once the group has been moved past it. */
  lemma MovedPast(log: Log, later: Log, start: Cursor, position: Id, e: Entry)
    requires Shaped(log) && Shaped(later) && log.entries <= later.entries
    requires e in Range(log.entries, start) && Before(position, e.id)
    ensures
      var handed := Range(log.entries, start);
      && e in Range(later.entries, After(position))
      && e !in Range(later.entries, After(handed[|handed| - 1].id))
  {
    var handed := Range(log.entries, start);
    var k := RangeIsSuffix(log.entries, start);
    RangeMembers(log.entries, start);
    RangeMembers(later.entries, After(position));
    RangeMembers(later.entries, After(handed[|handed| - 1].id));
    var i :| 0 <= i < |handed| && handed[i] == e;
    assert log.entries[k + i] == e && log.entries[|log.entries| - 1] == handed[|handed| - 1];
  }

  // ---------------------------------------------------------------- what a rebuild hands over

  /** Groups stand within their topics when the rebuild begins. */
  ghost predicate WithinTopics(scene: Scene, groups: seq<Group>, from: nat) {
    && scene.AllShaped() && |scene.logs| == |groups|
    && forall j: nat :: j < |groups| && groups[j].position.Some? ==>
         !Before(scene.LogAt(j, from).last, groups[j].position.value)
  }

  /** Every call of the rebuild went through. */
  ghost predicate Undisturbed(scene: Scene, c: Course) {
    AllFine(scene, c.from, StartOf(StartOf(c.from, c.ends, |c.ends|), c.steps, |c.steps|))
  }

  /** What the live tail of topic `j` has to deliver by call `n`. */
  function TailAt(scene: Scene, groups: seq<Group>, j: nat, n: nat): seq<Entry>
    requires j < |scene.logs| == |groups|
  {
    Range(scene.LogAt(j, n).entries, After(Stands(groups[j].position)))
  }

  lemma StagesFollow(from: nat, ends: seq<nat>, i: nat, j: nat)
    requires i <= j <= |ends|
    requires forall k: nat :: k < |ends| ==> StageGrows(from, ends, k)
    ensures StartOf(from, ends, i) <= StartOf(from, ends, j)
    decreases j
  {
    if i < j {
      StagesFollow(from, ends, i, j - 1);
      assert StageGrows(from, ends, j - 1);
    }
  }

  predicate StageGrows(from: nat, ends: seq<nat>, k: nat) {
    k < |ends| && StartOf(from, ends, k) <= ends[k]
  }

  /** The calls of a rebuild that succeeds come one after another. */
  lemma CallsFollow(scene: Scene, limits: Limits, groups: seq<Group>, groups': seq<Group>, c: Course, i: nat)
    requires Succeeds(scene, limits, groups, groups', c) && i < |groups|
    ensures
      var middle := StartOf(c.from, c.ends, |c.ends|);
      && c.from <= StartOf(c.from, c.ends, i) < c.ends[i] <= middle
      && middle <= StartOf(middle, c.steps, i) < c.steps[i] <= StartOf(middle, c.steps, |c.steps|)
  {
    var middle := StartOf(c.from, c.ends, |c.ends|);
    forall k: nat | k < |c.ends| ensures StageGrows(c.from, c.ends, k) {
      assert ReadAt(scene, groups, limits, c.from, c.ends, c.handed, k);
    }
    forall k: nat | k < |c.steps| ensures StageGrows(middle, c.steps, k) {
      assert Ended(scene, groups, groups', c.handed, middle, c.steps, k, false);
      TakeoverStops(scene, groups[k], c.handed[k], StartOf(middle, c.steps, k));
    }
    assert ReadAt(scene, groups, limits, c.from, c.ends, c.handed, i);
    assert Ended(scene, groups, groups', c.handed, middle, c.steps, i, false);
    TakeoverStops(scene, groups[i], c.handed[i], StartOf(middle, c.steps, i));
    StagesFollow(c.from, c.ends, 0, i);
    StagesFollow(c.from, c.ends, i + 1, |c.ends|);
    StagesFollow(middle, c.steps, 0, i);
    StagesFollow(middle, c.steps, i + 1, |c.steps|);
  }

  /** In an undisturbed rebuild the group of each topic ends up just after what was replayed of it, or stays. */
  lemma GroupsAfterRebuild(scene: Scene, limits: Limits, groups: seq<Group>, groups': seq<Group>, c: Course, i: nat)
    requires Succeeds(scene, limits, groups, groups', c) && Undisturbed(scene, c) && i < |groups|
    ensures groups'[i] == Group(Some(GroupAfter(groups[i].position, c.handed[i])), Unacked(groups[i].pending))
    ensures |scene.logs| == |groups|
    ensures c.handed[i] == Owed(scene.LogAt(i, c.ends[i]).entries, groups[i].position, limits.windowStart)
  {
    var middle := StartOf(c.from, c.ends, |c.ends|);
    CallsFollow(scene, limits, groups, groups', c, i);
    assert ReadAt(scene, groups, limits, c.from, c.ends, c.handed, i);
    assert scene.FaultAt(StartOf(c.from, c.ends, i)).Fine?;
    assert Ended(scene, groups, groups', c.handed, middle, c.steps, i, false);
    CleanTakeover(scene, groups[i], c.handed[i], StartOf(middle, c.steps, i));
  }

  /**
   Every entry owed goes to exactly one of shadow and tail, in order, whatever has arrived by call `n`: of each
   topic, what was replayed followed by what the tail delivers is what is owed, if and only if it is not the
   case that there was no group, all that had been stored when the topic was read lay before the window, and
   something still does.
   */
  lemma RebuildDivides(scene: Scene, limits: Limits, groups: seq<Group>, groups': seq<Group>, c: Course, i: nat, n: nat)
    requires Succeeds(scene, limits, groups, groups', c) && Undisturbed(scene, c)
    requires WithinTopics(scene, groups, c.from) && i < |groups| && c.ends[i] <= n
    ensures |groups'| == |scene.logs|
    ensures
      var read, now, position := scene.LogAt(i, c.ends[i]).entries, scene.LogAt(i, n).entries, groups[i].position;
      && (c.handed[i] + TailAt(scene, groups', i, n) == Owed(now, position, limits.windowStart) <==>
            !(position.None? && AllBefore(read, limits.windowStart) && SomeBefore(now, limits.windowStart)))
      && (position.None? && AllBefore(read, limits.windowStart) ==>
            c.handed[i] == [] && TailAt(scene, groups', i, n) == now)
  {
    GroupsAfterRebuild(scene, limits, groups, groups', c, i);
    CallsFollow(scene, limits, groups, groups', c, i);
    var log, later := scene.LogAt(i, c.ends[i]), scene.LogAt(i, n);
    scene.LogGrows(i, c.from, c.ends[i]);
    scene.LogGrows(i, c.ends[i], n);
    assert later.entries == log.entries + later.entries[|log.entries|..];
    HandedOverExactly(log.entries, later.entries[|log.entries|..], log.last, groups[i].position, limits.windowStart);
  }

  // ---------------------------------------------------------------- a rebuild that loses what it read

  /** Nothing more is published. */
  lemma {:induction false} QuietLog(scene: Scene, j: nat, n: nat)
    requires j < |scene.logs| && forall k: nat :: scene.fate(k).arrivals(j) == []
    ensures scene.LogAt(j, n) == scene.logs[j]
  {
    if n > 0 {
      QuietLog(scene, j, n - 1);
      assert scene.fate(n - 1).arrivals(j) == [];
    }
  }

  /** One entry, and a connection that is lost on the reply to the command that moves the group. */
  function LostReply(e: Entry): Scene {
    Scene([Log([e], e.id)], k => Call(_ => [], if k == 5 then ReplyLost else Fine))
  }

  const NEW_GROUP: Group := Group(None, [])

  lemma LostReplyTakeover(e: Entry)
    requires Before(ZERO, e.id)
    ensures TookOver(LostReply(e), NEW_GROUP, [e], 3) == Handover(Group(Some(e.id), []), 6, Cut)
  {
    assert MoveGroup(LostReply(e), Created(NEW_GROUP), e.id, 4) == Handover(Group(Some(e.id), []), 6, Cut);
  }

  lemma LostReplyRead(e: Entry, limits: Limits)
    requires !Before(e.id, limits.windowStart) && limits.maxEntries >= 1
    ensures TopicRead(LostReply(e), [NEW_GROUP], limits, 0, 0, 3, [e])
  {
    QuietLog(LostReply(e), 0, 3);
    RangeAll([e], At(limits.windowStart));
  }

  lemma LostReplyCutOff(e: Entry, limits: Limits)
    requires Before(ZERO, e.id) && !Before(e.id, limits.windowStart) && limits.maxEntries >= 1
    ensures IsCutOff(LostReply(e), limits, [NEW_GROUP], [Group(Some(e.id), [])], Course(0, [[e]], [3], [6]))
  {
    LostReplyRead(e, limits);
    LostReplyTakeover(e);
    assert ReadAt(LostReply(e), [NEW_GROUP], limits, 0, [3], [[e]], 0);
    assert Ended(LostReply(e), [NEW_GROUP], [Group(Some(e.id), [])], [[e]], 3, [6], 0, true);
  }

  lemma LostReplyTails(e: Entry, n: nat)
    requires Before(ZERO, e.id)
    ensures TailAt(LostReply(e), [NEW_GROUP], 0, n) == [e]
    ensures TailAt(LostReply(e), [Group(Some(e.id), [])], 0, n) == []
  {
    QuietLog(LostReply(e), 0, n);
    RangeAll([e], After(ZERO));
    RangeNone([e], After(e.id));
  }

  /**
   Such a rebuild returns no model, yet its group has moved: the entry is on neither console, for good, although
   without the rebuild the tail would have delivered it.
   */
  lemma LostReplyLosesEntry(e: Entry, limits: Limits, n: nat)
    requires Before(ZERO, e.id) && !Before(e.id, limits.windowStart) && limits.maxEntries >= 1
    ensures
      var scene, groups, groups' := LostReply(e), [NEW_GROUP], [Group(Some(e.id), [])];
      && IsCutOff(scene, limits, groups, groups', Course(0, [[e]], [3], [6]))
      && !PlainColdStart(groups, groups')
      && TailAt(scene, groups, 0, n) == [e] && TailAt(scene, groups', 0, n) == []
  {
    LostReplyCutOff(e, limits);
    LostReplyTails(e, n);
    assert !Untouched([NEW_GROUP][0], [Group(Some(e.id), [])][0]);
  }
}
