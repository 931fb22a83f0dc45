/**
 Cold-start rebuild of the read model: page through each topic into a shadow model, then move the live
 group past what was replayed, while publishers keep appending. Which command meets which fate is laid
 down by the scene; every contract says exactly how the server stands after the commands made.
*/
module Rebuild {
  import opened Prelude
  import opened Projection
  import opened ReadModels
  import opened Streams

  /** The window's first id, and how much of a topic is too much. */
  datatype Limits = Limits(windowStart: Id, maxEntries: nat)

  // ---------------------------------------------------------------- replaying one topic

  /** Replay starts at the window, or just after the group's position if that lies further back. */
  function StartCursor(group: Option<Id>, windowStart: Id): Cursor {
    if group.Some? && Before(group.value, windowStart) then After(group.value) else At(windowStart)
  }

  /** What a rebuild answers for: the window and everything after the group's position. */
  function Owed(entries: seq<Entry>, group: Option<Id>, windowStart: Id): seq<Entry> {
    Range(entries, StartCursor(group, windowStart))
  }

  /** A cursor the paging loop may hold: still at the start, or just after an entry it has read. */
  ghost predicate Advanced(cursor: Cursor, start: Cursor, last: Id) {
    cursor == start || (cursor.After? && Admits(start, cursor.id) && !Before(last, cursor.id))
  }

  /** What arrives meanwhile is read through the cursor exactly if it would be read from the start. */
  lemma ArrivalsReadAlike(entries: seq<Entry>, more: seq<Entry>, handed: seq<Entry>, cursor: Cursor, start: Cursor,
    last: Id)
    requires Advanced(cursor, start, last)
    requires forall e :: e in more ==> Before(last, e.id)
    requires handed + Range(entries, cursor) == Range(entries, start)
    ensures handed + Range(entries + more, cursor) == Range(entries + more, start)
  {
    RangeAppend(entries, more, cursor);
    RangeAppend(entries, more, start);
    MoreReadAlike(more, cursor, start, last);
    Regroup(handed, Range(entries, cursor), Range(more, cursor));
  }

  lemma MoreReadAlike(more: seq<Entry>, cursor: Cursor, start: Cursor, last: Id)
    requires Advanced(cursor, start, last)
    requires forall e :: e in more ==> Before(last, e.id)
    ensures Range(more, cursor) == Range(more, start)
  {
    if cursor != start {
      RangeAll(more, cursor);
      RangeAll(more, start);
    }
  }

  method ApplyPage(shadow: ReadModel, page: seq<Entry>)
    modifies shadow
    ensures shadow.Screen() == Project(old(shadow.Screen()), Decoded(page), shadow.maxOutcomes)
  {
    var i := 0;
    while i < |page|
      invariant 0 <= i <= |page|
      invariant shadow.Screen() == Project(old(shadow.Screen()), Decoded(page[..i]), shadow.maxOutcomes)
    {
      assert page[..i + 1][..i] == page[..i];
      if page[i].message.Some? {
        ProjectAppend(old(shadow.Screen()), Decoded(page[..i]), page[i].message.value, shadow.maxOutcomes);
        shadow.ApplyMessage(page[i].message.value);
      }
      i := i + 1;
    }
    assert page[..i] == page;
  }

  /** Apply a page on top of what has been applied so far. */
  method ApplyMore(shadow: ReadModel, page: seq<Entry>, ghost handed: seq<Entry>, ghost was: Screen)
    requires shadow.Screen() == Project(was, Decoded(handed), shadow.maxOutcomes)
    modifies shadow
    ensures shadow.Screen() == Project(was, Decoded(handed + page), shadow.maxOutcomes)
  {
    DecodedConcat(handed, page);
    ProjectConcat(was, Decoded(handed), Decoded(page), shadow.maxOutcomes);
    ApplyPage(shadow, page);
  }

  /** What is still to be read once `handed` has been applied and the cursor stands at `cursor`. */
  ghost predicate Progress(log: Log, handed: seq<Entry>, cursor: Cursor, start: Cursor) {
    Advanced(cursor, start, log.last) && handed + Range(log.entries, cursor) == Range(log.entries, start)
  }

  /** Publishers append. */
  lemma ProgressKept(log: Log, later: Log, handed: seq<Entry>, cursor: Cursor, start: Cursor)
    requires Continues(log, later) && Progress(log, handed, cursor, start)
    ensures Progress(later, handed, cursor, start)
  {
    assert later.entries == log.entries + later.entries[|log.entries|..];
    ArrivalsReadAlike(log.entries, later.entries[|log.entries|..], handed, cursor, start, log.last);
  }

  lemma ReadIsAdvanced(log: Log, cursor: Cursor, start: Cursor, e: Entry)
    requires Shaped(log) && Advanced(cursor, start, log.last) && e in Range(log.entries, cursor)
    ensures Advanced(After(e.id), start, log.last)
  {
    RangeMembers(log.entries, cursor);
    assert e in log.entries && Admits(cursor, e.id);
  }

  lemma SplitPage<T>(handed: seq<T>, all: seq<T>, n: nat)
    requires n <= |all|
    ensures handed + all == (handed + all[..n]) + all[n..]
  {
  }

  lemma PageIsProgress(log: Log, handed: seq<Entry>, cursor: Cursor, start: Cursor, n: nat)
    requires Shaped(log) && 0 < n <= |Range(log.entries, cursor)| && Progress(log, handed, cursor, start)
    ensures
      var page := Range(log.entries, cursor)[..n];
      Progress(log, handed + page, After(page[n - 1].id), start)
  {
    var all := Range(log.entries, cursor);
    assert all[n - 1] in all;
    ReadIsAdvanced(log, cursor, start, all[n - 1]);
    NextPage(log.entries, cursor, n);
    SplitPage(handed, all, n);
  }

  lemma PageIsNext<T>(handed: seq<T>, all: seq<T>, n: nat)
    ensures handed + Capped(all, n) <= handed + all
    ensures n > 0 && Capped(all, n) == [] ==> handed + Capped(all, n) == handed + all
  {
  }

  /** What a page tells: nothing more is there, or the next stretch of what is owed. */
  lemma PageTells(log: Log, handed: seq<Entry>, cursor: Cursor, start: Cursor)
    requires Shaped(log) && Progress(log, handed, cursor, start)
    ensures
      var page := Capped(Range(log.entries, cursor), PAGE);
      && handed + page <= Range(log.entries, start)
      && (page == [] ==> handed + page == Range(log.entries, start))
      && (page != [] ==> Progress(log, handed + page, After(page[|page| - 1].id), start))
  {
    var all := Range(log.entries, cursor);
    var page := Capped(all, PAGE);
    PageIsNext(handed, all, PAGE);
    if page != [] {
      assert page == all[..|page|];
      PageIsProgress(log, handed, cursor, start, |page|);
    }
  }

  /** `screen` is what applying the entries of `handed` makes of `before`; unfolded only where entries are decoded. */
  ghost predicate Shows(screen: Screen, before: Screen, handed: seq<Entry>, max: nat) {
    forall entries: seq<Entry> {:trigger Decoded(entries)} :: entries == handed ==>
      screen == Project(before, Decoded(entries), max)
  }

  method ReadPage(redis: Redis, j: nat, cursor: Cursor, ghost handed: seq<Entry>, ghost start: Cursor)
    returns (fault: Fault, page: seq<Entry>)
    requires redis.Valid() && j < |redis.logs| && Progress(redis.logs[j], handed, cursor, start)
    modifies redis`calls, redis`logs
    ensures redis.Called(fault) && (!fault.Fine? ==> page == [])
    ensures handed + page <= Range(redis.logs[j].entries, start)
    ensures page == [] && fault.Fine? ==> handed + page == Range(redis.logs[j].entries, start)
    ensures page != [] ==> Progress(redis.logs[j], handed + page, After(page[|page| - 1].id), start)
  {
    ghost var log := redis.logs[j];
    fault, page := redis.XRange(j, cursor);
    redis.scene.LogGrows(j, redis.calls - 1, redis.calls);
    ProgressKept(log, redis.logs[j], handed, cursor, start);
    PageTells(redis.logs[j], handed, cursor, start);
    assert !fault.Fine? ==> handed + page == handed;
  }

  /** Read one page and apply it to the shadow model. */
  method ReplayPage(redis: Redis, j: nat, shadow: ReadModel, cursor: Cursor,
    ghost handed: seq<Entry>, ghost start: Cursor, ghost was: Screen)
    returns (fault: Fault, page: seq<Entry>)
    requires redis.Valid() && j < |redis.logs| && Progress(redis.logs[j], handed, cursor, start)
    requires Shows(shadow.Screen(), was, handed, shadow.maxOutcomes)
    modifies redis`calls, redis`logs, shadow
    ensures redis.Called(fault) && (!fault.Fine? ==> page == [])
    ensures handed + page <= Range(redis.logs[j].entries, start)
    ensures page == [] && fault.Fine? ==> handed + page == Range(redis.logs[j].entries, start)
    ensures page != [] ==> Progress(redis.logs[j], handed + page, After(page[|page| - 1].id), start)
    ensures Shows(shadow.Screen(), was, handed + page, shadow.maxOutcomes)
  {
    fault, page := ReadPage(redis, j, cursor, handed, start);
    ApplyMore(shadow, page, handed, was);
  }

  /** Where a replay that asks for the group's position by call `k` takes the group to be. */
  function Seen(scene: Scene, groups: seq<Group>, j: nat, k: nat): Option<Id>
    requires j < |groups|
  {
    if scene.FaultAt(k).Fine? then groups[j].position else None
  }

  /** Call `from`, which asks for the position, got an answer, and the reads up to `to` all went through. */
  ghost predicate ReadThrough(scene: Scene, from: nat, to: int) {
    (from < to ==> !Lost(scene.FaultAt(from))) && AllFine(scene, from + 1, to)
  }

  ghost predicate AllFine(scene: Scene, from: nat, to: int) {
    forall k: nat :: from <= k < to ==> scene.FaultAt(k).Fine?
  }

  /** The last of these calls is the one that did not. */
  predicate BrokeOff(scene: Scene, from: nat, to: nat) {
    from < to && if to == from + 1 then Lost(scene.FaultAt(from)) else !scene.FaultAt(to - 1).Fine?
  }

  /** By calls `from` up to `to` topic `j` was read from its starting point to its end. */
  ghost predicate TopicRead(scene: Scene, groups: seq<Group>, limits: Limits, j: nat, from: nat, to: nat,
    handed: seq<Entry>) {
    && j < |scene.logs| == |groups| && from + 2 <= to <= from + |handed| + 2
    && ReadThrough(scene, from, to) && |handed| <= limits.maxEntries
    && handed == Owed(scene.LogAt(j, to).entries, Seen(scene, groups, j, from), limits.windowStart)
  }

  /** Reading it was given up, part of the way: there was too much of it, or the last call failed. */
  ghost predicate TopicGivenUp(scene: Scene, groups: seq<Group>, limits: Limits, j: nat, from: nat, to: nat,
    handed: seq<Entry>) {
    && j < |scene.logs| == |groups| && from < to <= from + |handed| + 2
    && ReadThrough(scene, from, to - 1) && (|handed| > limits.maxEntries || BrokeOff(scene, from, to))
    && handed <= Owed(scene.LogAt(j, to).entries, Seen(scene, groups, j, from), limits.windowStart)
  }

  /** Page through the topic from here on. */
  method PageThrough(redis: Redis, j: nat, shadow: ReadModel, start: Cursor, maxEntries: nat)
    returns (ok: bool, handed: seq<Entry>)
    requires redis.Valid() && j < |redis.logs|
    modifies redis`calls, redis`logs, shadow
    ensures redis.Valid() && |redis.logs| == |old(redis.logs)|
    ensures old(redis.calls) < redis.calls <= old(redis.calls) + |handed| + 1
    ensures AllFine(redis.scene, old(redis.calls), redis.calls - 1)
    ensures if ok
      then handed == Range(redis.logs[j].entries, start) && |handed| <= maxEntries &&
        redis.scene.FaultAt(redis.calls - 1).Fine?
      else (handed <= Range(redis.logs[j].entries, start) &&
            (|handed| > maxEntries || !redis.scene.FaultAt(redis.calls - 1).Fine?))
    ensures Shows(shadow.Screen(), old(shadow.Screen()), handed, shadow.maxOutcomes)
  {
    ghost var from, was := redis.calls, shadow.Screen();
    var cursor := start;
    handed := [];
    assert Decoded([]) == [];
    while true
      invariant redis.Valid() && |redis.logs| == |old(redis.logs)|
      invariant |handed| <= maxEntries && from <= redis.calls <= from + |handed|
      invariant AllFine(redis.scene, from, redis.calls)
      invariant Progress(redis.logs[j], handed, cursor, start)
      invariant Shows(shadow.Screen(), was, handed, shadow.maxOutcomes)
      decreases maxEntries - |handed|
    {
      var fault, page := ReplayPage(redis, j, shadow, cursor, handed, start, was);
      handed := handed + page;
      if page == [] || |handed| > maxEntries {
        return page == [] && fault.Fine?, handed;
      }
      cursor := After(page[|page| - 1].id);
    }
  }

  /** Ask for the group's position, then page through the topic. */
  method ReplayTopic(redis: Redis, j: nat, shadow: ReadModel, limits: Limits) returns (ok: bool, handed: seq<Entry>)
    requires redis.Valid() && j < |redis.logs|
    modifies redis`calls, redis`logs, shadow
    ensures redis.Valid() && |redis.logs| == |old(redis.logs)|
    ensures if ok
      then TopicRead(redis.scene, redis.groups, limits, j, old(redis.calls), redis.calls, handed)
      else TopicGivenUp(redis.scene, redis.groups, limits, j, old(redis.calls), redis.calls, handed)
    ensures Shows(shadow.Screen(), old(shadow.Screen()), handed, shadow.maxOutcomes)
  {
    var fault, position := redis.XInfo(j);
    if Lost(fault) {
      assert Decoded([]) == [];
      return false, [];
    }
    ok, handed := PageThrough(redis, j, shadow, StartCursor(position, limits.windowStart), limits.maxEntries);
  }

  // ---------------------------------------------------------------- replaying all topics

  function Flat(handed: seq<seq<Entry>>): seq<Entry> {
    if handed == [] then [] else Flat(handed[..|handed| - 1]) + handed[|handed| - 1]
  }

  lemma ProjectOneMore(handed: seq<seq<Entry>>, one: seq<Entry>, max: nat)
    ensures Project(BLANK, Decoded(Flat(handed + [one])), max) ==
      Project(Project(BLANK, Decoded(Flat(handed)), max), Decoded(one), max)
  {
    ProjectConcat(BLANK, Decoded(Flat(handed)), Decoded(one), max);
    DecodedConcat(Flat(handed), one);
    assert (handed + [one])[..|handed|] == handed;
  }

  /** `screen` is what applying all topics' entries makes of a blank one; unfolded only where they are spoken of. */
  ghost predicate ShowsAll(screen: Screen, handed: seq<seq<Entry>>, max: nat) {
    forall topics: seq<seq<Entry>> {:trigger Flat(topics)} :: topics == handed ==>
      screen == Project(BLANK, Decoded(Flat(topics)), max)
  }

  /** Where stage `i` of several begins, when `ends` tells where each of them ends. */
  function StartOf(from: nat, ends: seq<nat>, i: nat): nat
    requires i <= |ends|
  {
    if i == 0 then from else ends[i - 1]
  }

  /** Topic `i` was read to its end by the calls that `ends` tells. */
  ghost predicate ReadAt(scene: Scene, groups: seq<Group>, limits: Limits, from: nat, ends: seq<nat>,
    handed: seq<seq<Entry>>, i: nat) {
    && i < |handed| == |ends|
    && TopicRead(scene, groups, limits, i, StartOf(from, ends, i), ends[i], handed[i])
  }

  /** The first `n` topics were read, each to its end. */
  ghost predicate AllRead(scene: Scene, groups: seq<Group>, limits: Limits, from: nat, ends: seq<nat>,
    handed: seq<seq<Entry>>, n: nat) {
    && n <= |handed| == |ends|
    && forall i: nat :: i < n ==> ReadAt(scene, groups, limits, from, ends, handed, i)
  }

  /** The replay ended at its last topic, which was given up; those before it went through. */
  ghost predicate Abandoned(scene: Scene, groups: seq<Group>, limits: Limits, from: nat, ends: seq<nat>,
    handed: seq<seq<Entry>>, n: nat) {
    && 0 < |handed| == |ends| <= n
    && AllRead(scene, groups, limits, from, ends, handed, |ends| - 1)
    && TopicGivenUp(scene, groups, limits, |ends| - 1, StartOf(from, ends, |ends| - 1), ends[|ends| - 1],
         handed[|ends| - 1])
  }

  lemma StartOfMore(from: nat, ends: seq<nat>, to: nat, i: nat)
    requires i <= |ends|
    ensures StartOf(from, ends + [to], i) == StartOf(from, ends, i)
  {
  }

  lemma StillRead(scene: Scene, groups: seq<Group>, limits: Limits, from: nat, ends: seq<nat>,
    handed: seq<seq<Entry>>, one: seq<Entry>, to: nat)
    requires AllRead(scene, groups, limits, from, ends, handed, |ends|)
    ensures AllRead(scene, groups, limits, from, ends + [to], handed + [one], |ends|)
  {
    var longer, more := ends + [to], handed + [one];
    forall i: nat | i < |ends| ensures ReadAt(scene, groups, limits, from, longer, more, i) {
      assert ReadAt(scene, groups, limits, from, ends, handed, i);
      StartOfMore(from, ends, to, i);
    }
  }

  lemma OneMoreRead(scene: Scene, groups: seq<Group>, limits: Limits, from: nat, ends: seq<nat>,
    handed: seq<seq<Entry>>, one: seq<Entry>, to: nat)
    requires AllRead(scene, groups, limits, from, ends, handed, |ends|)
    requires TopicRead(scene, groups, limits, |ends|, StartOf(from, ends, |ends|), to, one)
    ensures AllRead(scene, groups, limits, from, ends + [to], handed + [one], |ends| + 1)
  {
    StillRead(scene, groups, limits, from, ends, handed, one, to);
    StartOfMore(from, ends, to, |ends|);
  }

  lemma OneGivenUp(scene: Scene, groups: seq<Group>, limits: Limits, from: nat, ends: seq<nat>,
    handed: seq<seq<Entry>>, one: seq<Entry>, to: nat, n: nat)
    requires AllRead(scene, groups, limits, from, ends, handed, |ends|) && |ends| < n
    requires TopicGivenUp(scene, groups, limits, |ends|, StartOf(from, ends, |ends|), to, one)
    ensures Abandoned(scene, groups, limits, from, ends + [to], handed + [one], n)
  {
    StillRead(scene, groups, limits, from, ends, handed, one, to);
    StartOfMore(from, ends, to, |ends|);
    assert |ends + [to]| - 1 == |ends| && (ends + [to])[|ends|] == to && (handed + [one])[|ends|] == one;
  }

  /** Replay every topic in turn into a fresh model. */
  method ReplayAll(redis: Redis, shadow: ReadModel, limits: Limits)
    returns (ok: bool, handed: seq<seq<Entry>>, ghost ends: seq<nat>)
    requires redis.Valid() && shadow.Screen() == BLANK
    modifies redis`calls, redis`logs, shadow
    ensures redis.Valid() && |redis.logs| == |old(redis.logs)|
    ensures if ok
      then |ends| == |redis.groups| &&
        AllRead(redis.scene, redis.groups, limits, old(redis.calls), ends, handed, |ends|)
      else Abandoned(redis.scene, redis.groups, limits, old(redis.calls), ends, handed, |redis.groups|)
    ensures redis.calls == StartOf(old(redis.calls), ends, |ends|)
    ensures ShowsAll(shadow.Screen(), handed, shadow.maxOutcomes)
  {
    ghost var from := redis.calls;
    handed, ends := [], [];
    assert Decoded(Flat([])) == [];
    while |handed| < |redis.logs|
      invariant redis.Valid() && |redis.logs| == |old(redis.logs)| && |handed| == |ends| <= |redis.logs|
      invariant AllRead(redis.scene, redis.groups, limits, from, ends, handed, |ends|)
      invariant redis.calls == StartOf(from, ends, |ends|)
      invariant ShowsAll(shadow.Screen(), handed, shadow.maxOutcomes)
      decreases |redis.logs| - |handed|
    {
      var one;
      ok, one := ReplayTopic(redis, |handed|, shadow, limits);
      ProjectOneMore(handed, one, shadow.maxOutcomes);
      if !ok {
        OneGivenUp(redis.scene, redis.groups, limits, from, ends, handed, one, redis.calls, |redis.groups|);
        return false, handed + [one], ends + [redis.calls];
      }
      OneMoreRead(redis.scene, redis.groups, limits, from, ends, handed, one, redis.calls);
      handed, ends := handed + [one], ends + [redis.calls];
    }
    ok := true;
  }

  // ---------------------------------------------------------------- taking over one group

  /** How a handover ended: all done, given up on an error reply, or cut off by a lost connection. */
  datatype Ending = Done | Skipped | Cut

  function EndingOf(fault: Fault): Ending {
    if fault.Fine? then Done else if fault.Refused? then Skipped else Cut
  }

  /** The group, the number of calls made by then, and the ending. */
  datatype Handover = Handover(group: Group, calls: nat, ending: Ending)

  /** From call `k` on these ids are acked. */
  function AckEach(scene: Scene, group: Group, ids: seq<Id>, k: nat): Handover
    decreases |ids|
  {
    if ids == [] then Handover(group, k, Done)
    else
      var fault := scene.FaultAt(k);
      var after := if Arrives(fault) then group.(pending := Acked(group.pending, ids[0])) else group;
      if fault.Fine? then AckEach(scene, after, ids[1..], k + 1) else Handover(after, k + 1, EndingOf(fault))
  }

  /** From call `k` on a page of pending entries is listed and acked. */
  function AckPending(scene: Scene, group: Group, k: nat): Handover {
    var fault := scene.FaultAt(k);
    if fault.Fine? then AckEach(scene, group, Capped(group.pending, PENDING_PAGE), k + 1)
    else Handover(group, k + 1, EndingOf(fault))
  }

  /** The group is moved unless it is seen to stand at `last` or beyond. */
  predicate ToMove(seen: Option<Id>, last: Id) {
    seen.None? || Before(seen.value, last)
  }

  /** From call `k` on the group is looked at and, if need be, moved to `last`. */
  function MoveGroup(scene: Scene, group: Group, last: Id, k: nat): Handover {
    var look, move := scene.FaultAt(k), scene.FaultAt(k + 1);
    if Lost(look) then Handover(group, k + 1, Cut)
    else if !ToMove(if look.Fine? then group.position else None, last) then AckPending(scene, group, k + 1)
    else
      var moved := if Arrives(move) then group.(position := Some(last)) else group;
      if move.Fine? then AckPending(scene, moved, k + 2) else Handover(moved, k + 2, EndingOf(move))
  }

  /** How the takeover of a group whose topic was replayed as `handed` runs from call `k` on. */
  function TookOver(scene: Scene, group: Group, handed: seq<Entry>, k: nat): Handover {
    var fault := scene.FaultAt(k);
    var there := if Arrives(fault) then Created(group) else group;
    if !fault.Fine? then Handover(there, k + 1, EndingOf(fault))
    else if handed == [] then AckPending(scene, there, k + 1)
    else MoveGroup(scene, there, handed[|handed| - 1].id, k + 1)
  }

  /** The server stands as this handover leaves it, in the one group concerned. */
  twostate predicate Left(redis: Redis, j: nat, h: Handover)
    reads redis
  {
    && redis.Valid() && |redis.logs| == |old(redis.logs)| && j < |old(redis.groups)|
    && redis.calls == h.calls && redis.groups == old(redis.groups)[j := h.group]
  }

  method AckAll(redis: Redis, j: nat, ids: seq<Id>) returns (ending: Ending)
    requires redis.Valid() && j < |redis.groups|
    modifies redis
    ensures
      var h := AckEach(redis.scene, old(redis.groups[j]), ids, old(redis.calls));
      Left(redis, j, h) && ending == h.ending
  {
    ghost var group, k := redis.groups[j], redis.calls;
    var i := 0;
    while i < |ids|
      invariant 0 <= i <= |ids| && redis.Valid() && |redis.logs| == |old(redis.logs)|
      invariant redis.groups == old(redis.groups)[j := redis.groups[j]]
      invariant AckEach(redis.scene, group, ids, k) == AckEach(redis.scene, redis.groups[j], ids[i..], redis.calls)
    {
      assert ids[i..][1..] == ids[i + 1..];
      var fault := redis.XAck(j, ids[i]);
      if !fault.Fine? {
        return EndingOf(fault);
      }
      i := i + 1;
    }
    ending := Done;
  }

  method AckPage(redis: Redis, j: nat) returns (ending: Ending)
    requires redis.Valid() && j < |redis.groups|
    modifies redis
    ensures
      var h := AckPending(redis.scene, old(redis.groups[j]), old(redis.calls));
      Left(redis, j, h) && ending == h.ending
  {
    var fault, ids := redis.XPending(j);
    if fault.Fine? {
      ending := AckAll(redis, j, ids);
    } else {
      ending := EndingOf(fault);
    }
  }

  method LookAndMove(redis: Redis, j: nat, last: Id) returns (ending: Ending)
    requires redis.Valid() && j < |redis.groups|
    modifies redis
    ensures
      var h := MoveGroup(redis.scene, old(redis.groups[j]), last, old(redis.calls));
      Left(redis, j, h) && ending == h.ending
  {
    var fault, position := redis.XInfo(j);
    if Lost(fault) {
      return Cut;
    }
    if ToMove(position, last) {
      fault := redis.XGroupSetId(j, last);
      if !fault.Fine? {
        return EndingOf(fault);
      }
    }
    ending := AckPage(redis, j);
  }

  /** Take ownership of one topic's offsets. */
  method TakeOver(redis: Redis, j: nat, handed: seq<Entry>) returns (ending: Ending)
    requires redis.Valid() && j < |redis.groups|
    modifies redis
    ensures
      var h := TookOver(redis.scene, old(redis.groups[j]), handed, old(redis.calls));
      Left(redis, j, h) && ending == h.ending
  {
    var fault := redis.XGroupCreate(j);
    if !fault.Fine? {
      return EndingOf(fault);
    }
    if handed == [] {
      ending := AckPage(redis, j);
    } else {
      ending := LookAndMove(redis, j, handed[|handed| - 1].id);
    }
  }

  // ---------------------------------------------------------------- the whole rebuild

  /** Topic `i` was taken over by the calls that `steps` tells, and its handover ended like this. */
  ghost predicate Ended(scene: Scene, groups: seq<Group>, groups': seq<Group>, handed: seq<seq<Entry>>, from: nat,
    steps: seq<nat>, i: nat, cut: bool) {
    && i < |steps| <= |handed| == |groups| == |groups'|
    && var h := TookOver(scene, groups[i], handed[i], StartOf(from, steps, i));
    groups'[i] == h.group && steps[i] == h.calls && (h.ending.Cut? <==> cut)
  }

  /** The first `n` topics were taken over one after another, none cut off. */
  ghost predicate AllWent(scene: Scene, groups: seq<Group>, groups': seq<Group>, handed: seq<seq<Entry>>, from: nat,
    steps: seq<nat>, n: nat) {
    && n <= |steps| <= |handed| == |groups| == |groups'|
    && forall i: nat :: i < n ==> Ended(scene, groups, groups', handed, from, steps, i, false)
  }

  /** The last takeover was cut off; those before it went on, and those after it were never begun. */
  ghost predicate CutOff(scene: Scene, groups: seq<Group>, groups': seq<Group>, handed: seq<seq<Entry>>, from: nat,
    steps: seq<nat>) {
    && 0 < |steps|
    && AllWent(scene, groups, groups', handed, from, steps, |steps| - 1)
    && Ended(scene, groups, groups', handed, from, steps, |steps| - 1, true)
    && forall i: nat :: |steps| <= i < |groups| ==> groups'[i] == groups[i]
  }

  lemma OneMoreEnded(scene: Scene, groups: seq<Group>, was: seq<Group>, handed: seq<seq<Entry>>, from: nat,
    steps: seq<nat>, h: Handover)
    requires |steps| < |groups| && AllWent(scene, groups, was, handed, from, steps, |steps|)
    requires h == TookOver(scene, groups[|steps|], handed[|steps|], StartOf(from, steps, |steps|))
    ensures AllWent(scene, groups, was[|steps| := h.group], handed, from, steps + [h.calls], |steps|)
    ensures Ended(scene, groups, was[|steps| := h.group], handed, from, steps + [h.calls], |steps|, h.ending.Cut?)
  {
    var now, longer := was[|steps| := h.group], steps + [h.calls];
    forall i: nat | i < |steps| ensures Ended(scene, groups, now, handed, from, longer, i, false) {
      assert Ended(scene, groups, was, handed, from, steps, i, false);
      StartOfMore(from, steps, h.calls, i);
    }
    StartOfMore(from, steps, h.calls, |steps|);
  }

  /** Take the topics over one after another, until the connection is lost. */
  method HandOverAll(redis: Redis, handed: seq<seq<Entry>>) returns (ok: bool, ghost steps: seq<nat>)
    requires redis.Valid() && |handed| == |redis.groups|
    modifies redis
    ensures redis.Valid() && |redis.logs| == |old(redis.logs)|
    ensures if ok
      then |steps| == |handed| &&
        AllWent(redis.scene, old(redis.groups), redis.groups, handed, old(redis.calls), steps, |handed|)
      else CutOff(redis.scene, old(redis.groups), redis.groups, handed, old(redis.calls), steps)
    ensures redis.calls == StartOf(old(redis.calls), steps, |steps|)
  {
    ghost var groups, from := redis.groups, redis.calls;
    steps := [];
    var i := 0;
    while i < |handed|
      invariant i == |steps| <= |handed| == |redis.groups| && redis.Valid() && |redis.logs| == |old(redis.logs)|
      invariant AllWent(redis.scene, groups, redis.groups, handed, from, steps, i)
      invariant forall j: nat :: i <= j < |groups| ==> redis.groups[j] == groups[j]
      invariant redis.calls == StartOf(from, steps, i)
    {
      ghost var was, h := redis.groups, TookOver(redis.scene, groups[i], handed[i], redis.calls);
      var ending := TakeOver(redis, i, handed[i]);
      OneMoreEnded(redis.scene, groups, was, handed, from, steps, h);
      steps := steps + [redis.calls];
      if ending.Cut? {
        return false, steps;
      }
      i := i + 1;
    }
    ok := true;
  }

  /** How it goes: `handed` was read by calls ending at `ends`, and groups taken over by calls ending at `steps`. */
  datatype Course = Course(from: nat, handed: seq<seq<Entry>>, ends: seq<nat>, steps: seq<nat>)

  /** Every topic was read to its end, and no takeover was cut off. */
  ghost predicate Succeeds(scene: Scene, limits: Limits, groups: seq<Group>, groups': seq<Group>, c: Course) {
    && |c.ends| == |groups| && AllRead(scene, groups, limits, c.from, c.ends, c.handed, |groups|)
    && |c.steps| == |groups|
    && AllWent(scene, groups, groups', c.handed, StartOf(c.from, c.ends, |c.ends|), c.steps, |groups|)
  }

  /** A topic was given up, and no group was touched. */
  ghost predicate GivesUp(scene: Scene, limits: Limits, groups: seq<Group>, groups': seq<Group>, c: Course) {
    && Abandoned(scene, groups, limits, c.from, c.ends, c.handed, |groups|)
    && groups' == groups && c.steps == []
  }

  /** Every topic was read to its end, but the connection was lost in the middle of taking them over. */
  ghost predicate IsCutOff(scene: Scene, limits: Limits, groups: seq<Group>, groups': seq<Group>, c: Course) {
    && |c.ends| == |groups| && AllRead(scene, groups, limits, c.from, c.ends, c.handed, |groups|)
    && CutOff(scene, groups, groups', c.handed, StartOf(c.from, c.ends, |c.ends|), c.steps)
  }

  /** The rebuild. There is a model exactly in the first of the three ways it can go. */
  method Rebuild(redis: Redis, limits: Limits, maxOutcomes: nat, ttl: int, maxCards: nat)
    returns (model: ReadModel?, ghost c: Course)
    requires redis.Valid()
    modifies redis
    ensures redis.Valid() && c.from == old(redis.calls)
    ensures model != null ==> Succeeds(redis.scene, limits, old(redis.groups), redis.groups, c)
    ensures model == null ==> !Succeeds(redis.scene, limits, old(redis.groups), redis.groups, c)
    ensures model == null ==>
      GivesUp(redis.scene, limits, old(redis.groups), redis.groups, c) ||
      IsCutOff(redis.scene, limits, old(redis.groups), redis.groups, c)
    ensures redis.calls == StartOf(StartOf(c.from, c.ends, |c.ends|), c.steps, |c.steps|)
    ensures model != null ==> fresh(model)
    ensures model != null ==> (model.maxOutcomes, model.ttl, model.maxCards) == (maxOutcomes, ttl, maxCards)
    ensures model != null ==> model.Screen() == Project(BLANK, Decoded(Flat(c.handed)), maxOutcomes)
    ensures model != null ==> model.Board() == Fold(EMPTY, Decoded(Flat(c.handed)), maxOutcomes)
  {
    var shadow := new ReadModel(maxOutcomes, ttl, maxCards);
    ghost var from, ends, steps := redis.calls, [], [];
    var ok, handed;
    ok, handed, ends := ReplayAll(redis, shadow, limits);
    if !ok {
      c := Course(from, handed, ends, []);
      GivenUpIsNoSuccess(redis.scene, limits, redis.groups, c);
      return null, c;
    }
    ok, steps := HandOverAll(redis, handed);
    c := Course(from, handed, ends, steps);
    if !ok {
      CutOffIsNoSuccess(redis.scene, limits, old(redis.groups), redis.groups, c);
      return null, c;
    }
    ProjectsBoard(BLANK, Decoded(Flat(handed)), maxOutcomes);
    model := shadow;
  }

  /** What a restart shows: what was replayed, if every topic was and the handover was not cut off. */
  ghost function Restarted(scene: Scene, limits: Limits, groups: seq<Group>, groups': seq<Group>, c: Course, max: nat):
    Screen
  {
    if Succeeds(scene, limits, groups, groups', c) then Project(BLANK, Decoded(Flat(c.handed)), max) else BLANK
  }

  /** A restart: the rebuilt model is taken, or else a new one with the same limits. */
  method Start(redis: Redis, limits: Limits, maxOutcomes: nat, ttl: int, maxCards: nat)
    returns (model: ReadModel, ghost c: Course)
    requires redis.Valid()
    modifies redis
    ensures fresh(model) && (model.maxOutcomes, model.ttl, model.maxCards) == (maxOutcomes, ttl, maxCards)
    ensures model.Screen() == Restarted(redis.scene, limits, old(redis.groups), redis.groups, c, maxOutcomes)
  {
    var rebuilt;
    rebuilt, c := Rebuild(redis, limits, maxOutcomes, ttl, maxCards);
    if rebuilt == null {
      model := new ReadModel(maxOutcomes, ttl, maxCards);
    } else {
      model := rebuilt;
    }
  }

  /** The first look at the restarted console: nothing that the limits asked for would have kept is missing. */
  method StartAndLook(redis: Redis, limits: Limits, maxOutcomes: nat, ttl: int, maxCards: nat, now: int)
    returns (model: ReadModel, ghost c: Course)
    requires redis.Valid()
    modifies redis
    ensures
      var shown := Restarted(redis.scene, limits, old(redis.groups), redis.groups, c, maxOutcomes);
      && model.titles == shown.titles && model.outcomes == shown.board.outcomes
      && model.suppressed == shown.board.suppressed
      && Looked(shown.board.cards, model.cards, now, ttl, maxCards)
  {
    model, c := Start(redis, limits, maxOutcomes, ttl, maxCards);
    model.Prune(now);
  }

  lemma ReadExcludesAbandoned(scene: Scene, groups: seq<Group>, limits: Limits, from: nat, ends: seq<nat>,
    handed: seq<seq<Entry>>, n: nat)
    requires AllRead(scene, groups, limits, from, ends, handed, n) && |ends| == n
    ensures !Abandoned(scene, groups, limits, from, ends, handed, n)
  {
    if n > 0 {
      assert ReadAt(scene, groups, limits, from, ends, handed, n - 1);
      ReadExcludesGivenUp(scene, groups, limits, n - 1, StartOf(from, ends, n - 1), ends[n - 1], handed[n - 1]);
    }
  }

  lemma ReadExcludesGivenUp(scene: Scene, groups: seq<Group>, limits: Limits, j: nat, from: nat, to: nat,
    handed: seq<Entry>)
    requires TopicRead(scene, groups, limits, j, from, to, handed)
    ensures !TopicGivenUp(scene, groups, limits, j, from, to, handed)
  {
  }

  lemma GivenUpIsNoSuccess(scene: Scene, limits: Limits, groups: seq<Group>, c: Course)
    requires Abandoned(scene, groups, limits, c.from, c.ends, c.handed, |groups|)
    ensures !Succeeds(scene, limits, groups, groups, c)
  {
    if AllRead(scene, groups, limits, c.from, c.ends, c.handed, |groups|) && |c.ends| == |groups| {
      ReadExcludesAbandoned(scene, groups, limits, c.from, c.ends, c.handed, |groups|);
    }
  }

  lemma CutOffIsNoSuccess(scene: Scene, limits: Limits, groups: seq<Group>, groups': seq<Group>, c: Course)
    requires CutOff(scene, groups, groups', c.handed, StartOf(c.from, c.ends, |c.ends|), c.steps)
    ensures !Succeeds(scene, limits, groups, groups', c)
  {
    var from, last := StartOf(c.from, c.ends, |c.ends|), |c.steps| - 1;
    assert !Ended(scene, groups, groups', c.handed, from, c.steps, last, false);
  }

}
