/**
 Redis streams, their consumer groups, and the server that holds them while publishers keep appending.
 Every command may be refused, lost on the way out or lost on the way back.
*/
module Streams {
  import opened Prelude
  import opened Projection

  /** A Redis stream id, `<ms>-<seq>`. */
  datatype Id = Id(ms: nat, num: nat)

  /** The id before all entries, where a group created at the start stands. */
  const ZERO: Id := Id(0, 0)

  predicate Before(a: Id, b: Id) {
    a.ms < b.ms || (a.ms == b.ms && a.num < b.num)
  }

  /** The lower bound of a range read: inclusive, or exclusive (written with a parenthesis). */
  datatype Cursor = At(id: Id) | After(id: Id)

  predicate Admits(cursor: Cursor, id: Id) {
    match cursor
    case At(lo) => !Before(id, lo)
    case After(lo) => Before(lo, id)
  }

  /** A stream entry; `message` is None when the payload does not decode. */
  datatype Entry = Entry(id: Id, message: Option<Message>)

  /** Something a publisher appends: the server's clock and the payload. */
  datatype Arrival = Arrival(now: nat, message: Option<Message>)

  const PAGE: nat := 500
  const PENDING_PAGE: nat := 1000

  function Range(entries: seq<Entry>, cursor: Cursor): seq<Entry> {
    if entries == [] then []
    else
      var last := |entries| - 1;
      if Admits(cursor, entries[last].id) then Range(entries[..last], cursor) + [entries[last]]
      else Range(entries[..last], cursor)
  }

  function Decoded(entries: seq<Entry>): seq<Message> {
    if entries == [] then []
    else
      var last := |entries| - 1;
      match entries[last].message
      case Some(m) => Decoded(entries[..last]) + [m]
      case None => Decoded(entries[..last])
  }

  ghost predicate Increasing(entries: seq<Entry>) {
    forall i, j :: 0 <= i < j < |entries| ==> Before(entries[i].id, entries[j].id)
  }

  ghost predicate Bounded(entries: seq<Entry>, last: Id) {
    forall e :: e in entries ==> !Before(last, e.id)
  }

  /** The id the server gives an entry appended at clock `now` after `last`. */
  function NextId(last: Id, now: nat): Id {
    if now > last.ms then Id(now, 0) else Id(last.ms, last.num + 1)
  }

  /** What is stored of a topic, and the last id given out. */
  datatype Log = Log(entries: seq<Entry>, last: Id)

  function Appended(log: Log, arrival: Arrival): Log {
    var id := NextId(log.last, arrival.now);
    Log(log.entries + [Entry(id, arrival.message)], id)
  }

  function Published(log: Log, arrivals: seq<Arrival>): Log {
    if arrivals == [] then log else Appended(Published(log, arrivals[..|arrivals| - 1]), arrivals[|arrivals| - 1])
  }

  ghost predicate Shaped(log: Log) {
    Increasing(log.entries) && Bounded(log.entries, log.last) && forall e :: e in log.entries ==> Before(ZERO, e.id)
  }

  /** `later` continues `log`: what has been added comes after everything before. */
  ghost predicate Continues(log: Log, later: Log) {
    && log.entries <= later.entries && !Before(later.last, log.last)
    && forall e :: e in later.entries[|log.entries|..] ==> Before(log.last, e.id)
  }

  lemma AppendedContinues(log: Log, later: Log, arrival: Arrival)
    requires Shaped(later) && Continues(log, later)
    ensures Shaped(Appended(later, arrival)) && Continues(log, Appended(later, arrival))
  {
    var longer := Appended(later, arrival);
    assert longer.entries[|log.entries|..] == later.entries[|log.entries|..] + [longer.entries[|later.entries|]];
    assert forall j :: 0 <= j < |later.entries| ==> later.entries[j] in later.entries;
  }

  lemma {:induction false} PublishedContinues(log: Log, later: Log, arrivals: seq<Arrival>)
    requires Shaped(later) && Continues(log, later)
    ensures Shaped(Published(later, arrivals)) && Continues(log, Published(later, arrivals))
  {
    if arrivals != [] {
      PublishedContinues(log, later, arrivals[..|arrivals| - 1]);
      AppendedContinues(log, Published(later, arrivals[..|arrivals| - 1]), arrivals[|arrivals| - 1]);
    }
  }

  // ---------------------------------------------------------------- ranges of an increasing log

  lemma {:induction false} RangeAppend(a: seq<Entry>, b: seq<Entry>, cursor: Cursor)
    ensures Range(a + b, cursor) == Range(a, cursor) + Range(b, cursor)
  {
    if b == [] {
      assert a + b == a;
    } else {
      var last := |b| - 1;
      RangeAppend(a, b[..last], cursor);
      assert (a + b)[..|a + b| - 1] == a + b[..last];
    }
  }

  lemma {:induction false} RangeAll(entries: seq<Entry>, cursor: Cursor)
    requires forall e :: e in entries ==> Admits(cursor, e.id)
    ensures Range(entries, cursor) == entries
  {
    if entries != [] {
      RangeAll(entries[..|entries| - 1], cursor);
    }
  }

  lemma {:induction false} RangeNone(entries: seq<Entry>, cursor: Cursor)
    requires forall e :: e in entries ==> !Admits(cursor, e.id)
    ensures Range(entries, cursor) == []
  {
    if entries != [] {
      RangeNone(entries[..|entries| - 1], cursor);
    }
  }

  lemma {:induction false} RangeMembers(entries: seq<Entry>, cursor: Cursor)
    ensures forall e :: e in Range(entries, cursor) <==> e in entries && Admits(cursor, e.id)
  {
    if entries != [] {
      var last := |entries| - 1;
      RangeMembers(entries[..last], cursor);
      assert entries == entries[..last] + [entries[last]];
    }
  }

  /** In an increasing log a range read returns a suffix. */
  lemma {:induction false} RangeIsSuffix(entries: seq<Entry>, cursor: Cursor) returns (k: nat)
    requires Increasing(entries)
    ensures k <= |entries| && Range(entries, cursor) == entries[k..]
    ensures forall i :: 0 <= i < k ==> !Admits(cursor, entries[i].id)
    ensures forall i :: k <= i < |entries| ==> Admits(cursor, entries[i].id)
  {
    if entries == [] {
      k := 0;
    } else {
      var last := |entries| - 1;
      k := RangeIsSuffix(entries[..last], cursor);
      if Admits(cursor, entries[last].id) {
        assert entries[k..] == entries[..last][k..] + [entries[last]];
      } else {
        assert forall i :: 0 <= i < last ==>
          entries[..last][i] == entries[i] && Before(entries[i].id, entries[last].id);
        assert k == last;
        k := |entries|;
      }
    }
  }

  /** Continuing after the last entry of a page reads exactly the rest. */
  lemma NextPage(entries: seq<Entry>, cursor: Cursor, n: nat)
    requires Increasing(entries) && 0 < n <= |Range(entries, cursor)|
    ensures Range(entries, After(Range(entries, cursor)[n - 1].id)) == Range(entries, cursor)[n..]
  {
    var k := RangeIsSuffix(entries, cursor);
    var lastRead := Range(entries, cursor)[n - 1];
    assert lastRead == entries[k + n - 1];
    var j := RangeIsSuffix(entries, After(lastRead.id));
    assert j <= k + n - 1 ==> Admits(After(lastRead.id), entries[k + n - 1].id);
    assert j > k + n ==> !Admits(After(lastRead.id), entries[k + n].id);
    assert j == k + n;
  }

  lemma DecodedConcat(a: seq<Entry>, b: seq<Entry>)
    ensures Decoded(a + b) == Decoded(a) + Decoded(b)
  {
    if b == [] {
      assert a + b == a;
    } else {
      assert (a + b)[..|a + b| - 1] == a + b[..|b| - 1];
    }
  }

  lemma Regroup<T>(a: seq<T>, b: seq<T>, c: seq<T>)
    ensures a + (b + c) == (a + b) + c
  {
  }

  // ---------------------------------------------------------------- the server

  datatype Fault = Fine | Refused | RequestLost | ReplyLost

  predicate Lost(fault: Fault) {
    fault.RequestLost? || fault.ReplyLost?
  }

  /** The command takes effect at the server. */
  predicate Arrives(fault: Fault) {
    fault.Fine? || fault.ReplyLost?
  }

  /** What a command meets: what publishers append to each topic before it, and its own fate. */
  datatype Call = Call(arrivals: nat -> seq<Arrival>, fault: Fault)

  /** The topics at the start, and what every command will meet. */
  datatype Scene = Scene(logs: seq<Log>, fate: nat -> Call) {

    /** Topic `j` after `n` commands: nothing but publishers writes to it. */
    function LogAt(j: nat, n: nat): Log
      requires j < |logs|
    {
      if n == 0 then logs[j] else Published(LogAt(j, n - 1), fate(n - 1).arrivals(j))
    }

    function FaultAt(k: nat): Fault {
      fate(k).fault
    }

    ghost predicate AllShaped() {
      forall j: nat :: j < |logs| ==> Shaped(logs[j])
    }

    lemma {:induction false} LogShaped(j: nat, n: nat)
      requires AllShaped() && j < |logs|
      ensures Shaped(LogAt(j, n))
    {
      if n > 0 {
        LogShaped(j, n - 1);
        PublishedContinues(LogAt(j, n - 1), LogAt(j, n - 1), fate(n - 1).arrivals(j));
      }
    }

    lemma {:induction false} LogGrows(j: nat, m: nat, n: nat)
      requires AllShaped() && j < |logs| && m <= n
      ensures Shaped(LogAt(j, n)) && Continues(LogAt(j, m), LogAt(j, n))
    {
      LogShaped(j, n);
      if m < n {
        LogGrows(j, m, n - 1);
        PublishedContinues(LogAt(j, m), LogAt(j, n - 1), fate(n - 1).arrivals(j));
      }
    }
  }

  /** The consumer group of a topic: its last delivered id if it exists, and what was delivered but not acked. */
  datatype Group = Group(position: Option<Id>, pending: seq<Id>)

  function Created(group: Group): Group {
    if group.position.None? then group.(position := Some(ZERO)) else group
  }

  /** An id is taken off the pending list. */
  function Acked(pending: seq<Id>, id: Id): seq<Id> {
    if pending == [] then []
    else if pending[0] == id then pending[1..]
    else [pending[0]] + Acked(pending[1..], id)
  }

  class Redis {
    const scene: Scene
    var calls: nat
    var logs: seq<Log>
    var groups: seq<Group>

    ghost predicate Valid()
      reads this
    {
      && scene.AllShaped() && |logs| == |groups| == |scene.logs|
      && forall j: nat :: j < |logs| ==> logs[j] == scene.LogAt(j, calls)
    }

    /** One command was sent, whose fate is `fault`. */
    twostate predicate Called(fault: Fault)
      reads this
    {
      Valid() && calls == old(calls) + 1 && fault == scene.FaultAt(old(calls)) && |logs| == |old(logs)|
    }

    constructor (logs: seq<Log>, fate: nat -> Call, groups: seq<Group>)
      requires |logs| == |groups| && forall j: nat :: j < |logs| ==> Shaped(logs[j])
      ensures Valid() && scene == Scene(logs, fate) && calls == 0 && this.groups == groups
    {
      scene, calls := Scene(logs, fate), 0;
      this.logs, this.groups := logs, groups;
    }

    static method Append(log: Log, arrivals: seq<Arrival>) returns (longer: Log)
      ensures longer == Published(log, arrivals)
    {
      longer := log;
      var i := 0;
      while i < |arrivals|
        invariant 0 <= i <= |arrivals| && longer == Published(log, arrivals[..i])
      {
        assert arrivals[..i + 1][..i] == arrivals[..i];
        longer := Appended(longer, arrivals[i]);
        i := i + 1;
      }
      assert arrivals[..i] == arrivals;
    }

    /** Publishers append before the command arrives. */
    method Begin() returns (fault: Fault)
      requires Valid()
      modifies this`calls, this`logs
      ensures Called(fault)
    {
      var call := scene.fate(calls);
      var longer: seq<Log> := [];
      while |longer| < |logs|
        modifies {}
        invariant |longer| <= |logs|
        invariant forall j: nat :: j < |longer| ==> longer[j] == scene.LogAt(j, calls + 1)
      {
        var log := Append(logs[|longer|], call.arrivals(|longer|));
        longer := longer + [log];
      }
      logs, calls := longer, calls + 1;
      fault := call.fault;
    }

    method XInfo(j: nat) returns (fault: Fault, position: Option<Id>)
      requires Valid() && j < |logs|
      modifies this`calls, this`logs
      ensures Called(fault) && position == if fault.Fine? then groups[j].position else None
    {
      fault := Begin();
      position := if fault.Fine? then groups[j].position else None;
    }

    method XRange(j: nat, cursor: Cursor) returns (fault: Fault, page: seq<Entry>)
      requires Valid() && j < |logs|
      modifies this`calls, this`logs
      ensures Called(fault) && page == if fault.Fine? then Capped(Range(logs[j].entries, cursor), PAGE) else []
    {
      fault := Begin();
      page := if fault.Fine? then Capped(Range(logs[j].entries, cursor), PAGE) else [];
    }

    method XGroupCreate(j: nat) returns (fault: Fault)
      requires Valid() && j < |logs|
      modifies this`calls, this`logs, this`groups
      ensures Called(fault)
      ensures groups == if Arrives(fault) then old(groups)[j := Created(old(groups[j]))] else old(groups)
    {
      fault := Begin();
      if Arrives(fault) {
        groups := groups[j := Created(groups[j])];
      }
    }

    method XGroupSetId(j: nat, id: Id) returns (fault: Fault)
      requires Valid() && j < |logs|
      modifies this`calls, this`logs, this`groups
      ensures Called(fault)
      ensures groups ==
        if Arrives(fault) then old(groups)[j := old(groups[j]).(position := Some(id))] else old(groups)
    {
      fault := Begin();
      if Arrives(fault) {
        groups := groups[j := groups[j].(position := Some(id))];
      }
    }

    method XPending(j: nat) returns (fault: Fault, ids: seq<Id>)
      requires Valid() && j < |logs|
      modifies this`calls, this`logs
      ensures Called(fault) && ids == if fault.Fine? then Capped(groups[j].pending, PENDING_PAGE) else []
    {
      fault := Begin();
      ids := if fault.Fine? then Capped(groups[j].pending, PENDING_PAGE) else [];
    }

    method XAck(j: nat, id: Id) returns (fault: Fault)
      requires Valid() && j < |logs|
      modifies this`calls, this`logs, this`groups
      ensures Called(fault)
      ensures groups ==
        if Arrives(fault) then old(groups)[j := old(groups[j]).(pending := Acked(old(groups[j]).pending, id))]
        else old(groups)
    {
      fault := Begin();
      if Arrives(fault) {
        groups := groups[j := groups[j].(pending := Acked(groups[j].pending, id))];
      }
    }
  }
}
