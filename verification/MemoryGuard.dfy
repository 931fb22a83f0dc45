/**
 The process-local idempotency guard: an ordered dictionary bounded in size whose entries also expire.
 `seen` is the dictionary, oldest first. Clock readings are arguments; they never go back.
*/
module MemoryGuards {
  import opened Prelude

  datatype Slot = Slot(key: string, value: string, expiry: int)

  function Drop(seen: seq<Slot>, key: string): seq<Slot> {
    if seen == [] then []
    else if seen[0].key == key then Drop(seen[1..], key)
    else [seen[0]] + Drop(seen[1..], key)
  }

  function Newest(seen: seq<Slot>, cap: nat): seq<Slot> {
    if |seen| <= cap then seen else seen[|seen| - cap..]
  }

  function Touched(seen: seq<Slot>, key: string, value: string, expiry: int, cap: nat): seq<Slot> {
    Newest(Drop(seen, key) + [Slot(key, value, expiry)], cap)
  }

  function Find(seen: seq<Slot>, key: string): Option<Slot> {
    if seen == [] then None else if seen[0].key == key then Some(seen[0]) else Find(seen[1..], key)
  }

  /** The value stored for a key that has not expired. */
  function Live(seen: seq<Slot>, key: string, now: int): Option<string> {
    match Find(seen, key)
    case None => None
    case Some(slot) => if now >= slot.expiry then None else Some(slot.value)
  }

  function Purged(seen: seq<Slot>, key: string, now: int): seq<Slot> {
    match Find(seen, key)
    case None => seen
    case Some(slot) => if now >= slot.expiry then Drop(seen, key) else seen
  }

  class MemoryGuard {
    const cap: nat
    const ttl: nat
    var seen: seq<Slot>

    constructor (cap: nat, ttl: nat)
      ensures seen == [] && this.cap == cap && this.ttl == ttl
    {
      this.cap, this.ttl, seen := cap, ttl, [];
    }

    method Touch(key: string, value: string, now: int)
      modifies this
      ensures seen == Touched(old(seen), key, value, now + ttl, cap)
    {
      seen := Drop(seen, key) + [Slot(key, value, now + ttl)];
      ghost var longer := seen;
      while |seen| > cap
        invariant |seen| <= |longer| && seen == longer[|longer| - |seen|..]
        invariant |longer| > cap ==> |seen| >= cap
        invariant |longer| <= cap ==> seen == longer
      {
        seen := seen[1..];
      }
    }

    method Lookup(key: string, now: int) returns (value: Option<string>)
      modifies this
      ensures value == Live(old(seen), key, now) && seen == Purged(old(seen), key, now)
    {
      match Find(seen, key) {
        case None => value := None;
        case Some(slot) =>
          if now >= slot.expiry {
            seen := Drop(seen, key);
            value := None;
          } else {
            value := Some(slot.value);
          }
      }
    }

    method Claim(key: string, now: int, later: int) returns (won: bool)
      modifies this
      ensures won == Live(old(seen), key, now).None?
      ensures seen == if won then Touched(Purged(old(seen), key, now), key, "1", later + ttl, cap)
        else Purged(old(seen), key, now)
    {
      var value := Lookup(key, now);
      if value.Some? {
        return false;
      }
      Touch(key, "1", later);
      return true;
    }

    method State(key: string, now: int) returns (value: Option<string>)
      modifies this
      ensures value == Live(old(seen), key, now) && seen == Purged(old(seen), key, now)
    {
      value := Lookup(key, now);
    }

    method SetState(key: string, value: string, now: int)
      modifies this
      ensures seen == Touched(old(seen), key, value, now + ttl, cap)
    {
      Touch(key, value, now);
    }
  }

  // ---------------------------------------------------------------- against an unbounded map

  /** A call, at the clock reading its lookup sees and the one its write sees. */
  datatype Op =
    | ClaimOp(key: string, now: int, later: int)
    | StateOp(key: string, now: int)
    | SetOp(key: string, value: string, now: int)

  datatype Answer = Won(won: bool) | Value(value: Option<string>) | Silent

  function StartOf(op: Op): int {
    op.now
  }

  function EndOf(op: Op): int {
    if op.ClaimOp? then op.later else op.now
  }

  /** The same guard without a size bound. */
  type Full = map<string, (string, int)>

  function LiveIn(full: Full, key: string, now: int): Option<string> {
    if key in full && now < full[key].1 then Some(full[key].0) else None
  }

  /** Both guards side by side, and the keys the bounded one has written, in order. */
  datatype Pair = Pair(seen: seq<Slot>, full: Full, touches: seq<string>, clock: int)

  function Answers(p: Pair, op: Op): (Answer, Answer) {
    match op
    case ClaimOp(k, now, _) => (Won(Live(p.seen, k, now).None?), Won(LiveIn(p.full, k, now).None?))
    case StateOp(k, now) => (Value(Live(p.seen, k, now)), Value(LiveIn(p.full, k, now)))
    case SetOp(_, _, _) => (Silent, Silent)
  }

  function Perform(p: Pair, op: Op, cap: nat, ttl: nat): Pair {
    match op
    case ClaimOp(k, now, later) =>
      var purged := Purged(p.seen, k, now);
      var won := Live(p.seen, k, now).None?;
      Pair(if won then Touched(purged, k, "1", later + ttl, cap) else purged,
           if LiveIn(p.full, k, now).None? then p.full[k := ("1", later + ttl)] else p.full,
           if won then p.touches + [k] else p.touches, later)
    case StateOp(k, now) => Pair(Purged(p.seen, k, now), p.full, p.touches, now)
    case SetOp(k, v, now) =>
      Pair(Touched(p.seen, k, v, now + ttl, cap), p.full[k := (v, now + ttl)], p.touches + [k], now)
  }

  /** The other keys written since `key` was last written. */
  function Since(touches: seq<string>, key: string): set<string> {
    if touches == [] then {}
    else
      var last := touches[|touches| - 1];
      if last == key then {} else Since(touches[..|touches| - 1], key) + {last}
  }

  /** Fewer than `cap` other keys were written since `key` was, or it never was. */
  predicate Fresh(touches: seq<string>, key: string, cap: nat) {
    key !in touches || |Since(touches, key)| < cap
  }

  predicate KeysDistinct(seen: seq<Slot>) {
    forall i, j :: 0 <= i < j < |seen| ==> seen[i].key != seen[j].key
  }

  /** Last-touch order: whatever stands later was written later, and expires no earlier. */
  ghost predicate TouchOrder(seen: seq<Slot>, touches: seq<string>) {
    forall i, j :: 0 <= i < j < |seen| ==>
      seen[j].key in Since(touches, seen[i].key) && seen[i].expiry <= seen[j].expiry
  }

  /** The dictionary's own shape. */
  ghost predicate InShape(seen: seq<Slot>, touches: seq<string>, clock: int, ttl: nat) {
    && KeysDistinct(seen)
    && TouchOrder(seen, touches)
    && (forall s :: s in seen ==> s.expiry <= clock + ttl)
  }

  function EntryOf(full: Full, k: string): Option<(string, int)> {
    if k in full then Some(full[k]) else None
  }

  /**
   How the bounded guard stands to the unbounded one as far as key `k` goes: it holds the same entry or
   none, and none only if the entry has expired or was crowded out.
   */
  predicate KeyMirrors(seen: seq<Slot>, entry: Option<(string, int)>, touches: seq<string>, clock: int, k: string,
    cap: nat) {
    && (Find(seen, k).Some? ==> entry == Some((Find(seen, k).value.value, Find(seen, k).value.expiry)))
    && (entry.Some? ==> k in touches)
    && (entry.Some? ==> Find(seen, k).Some? || entry.value.1 <= clock || |Since(touches, k)| >= cap)
  }

  ghost predicate Mirrors(p: Pair, k: string, cap: nat) {
    KeyMirrors(p.seen, EntryOf(p.full, k), p.touches, p.clock, k, cap)
  }

  // ---------------------------------------------------------------- the dictionary's operations

  lemma {:induction false} FindIsMember(seen: seq<Slot>, k: string)
    ensures Find(seen, k).Some? ==> Find(seen, k).value in seen && Find(seen, k).value.key == k
    ensures Find(seen, k).None? ==> forall s :: s in seen ==> s.key != k
  {
    if seen != [] && seen[0].key != k {
      FindIsMember(seen[1..], k);
    }
  }

  lemma {:induction false} DropMembers(seen: seq<Slot>, k: string)
    ensures forall s :: s in Drop(seen, k) <==> s in seen && s.key != k
  {
    if seen != [] {
      DropMembers(seen[1..], k);
      assert seen == [seen[0]] + seen[1..];
    }
  }

  lemma {:induction false} DropAbsent(seen: seq<Slot>, k: string)
    requires forall i :: 0 <= i < |seen| ==> seen[i].key != k
    ensures Drop(seen, k) == seen
  {
    if seen != [] {
      DropAbsent(seen[1..], k);
    }
  }

  /** With distinct keys, dropping a key takes out at most one slot: the one at `i`, if there is one. */
  lemma {:induction false} DropTakesOne(seen: seq<Slot>, k: string) returns (i: nat)
    requires KeysDistinct(seen)
    ensures i <= |seen|
    ensures i == |seen| ==> Drop(seen, k) == seen
    ensures i < |seen| ==> Drop(seen, k) == seen[..i] + seen[i + 1..]
  {
    if seen == [] {
      i := 0;
    } else if seen[0].key == k {
      DropAbsent(seen[1..], k);
      i := 0;
    } else {
      i := DropTakesOne(seen[1..], k);
      i := i + 1;
      assert i < |seen| ==> seen[..i] + seen[i + 1..] == [seen[0]] + (seen[1..][..i - 1] + seen[1..][i..]);
    }
  }

  lemma RemovedInShape(seen: seq<Slot>, i: nat, less: seq<Slot>, touches: seq<string>, clock: int, ttl: nat)
    requires InShape(seen, touches, clock, ttl) && i < |seen| && |less| == |seen| - 1
    requires forall a :: 0 <= a < |less| ==> less[a] == seen[if i <= a then a + 1 else a]
    ensures InShape(less, touches, clock, ttl)
  {
  }

  lemma DropInShape(seen: seq<Slot>, k: string, touches: seq<string>, clock: int, ttl: nat)
    requires InShape(seen, touches, clock, ttl)
    ensures InShape(Drop(seen, k), touches, clock, ttl) && |Drop(seen, k)| <= |seen|
    ensures forall s :: s in Drop(seen, k) <==> s in seen && s.key != k
  {
    DropMembers(seen, k);
    var i := DropTakesOne(seen, k);
    if i < |seen| {
      RemovedInShape(seen, i, seen[..i] + seen[i + 1..], touches, clock, ttl);
    }
  }

  lemma SinceGrows(touches: seq<string>, k: string, other: string)
    requires other != k
    ensures Since(touches + [k], other) == Since(touches, other) + {k}
    ensures |Since(touches + [k], other)| >= |Since(touches, other)|
  {
    assert (touches + [k])[..|touches|] == touches;
    var less, more := Since(touches, other), Since(touches + [k], other);
    if k in less {
      assert more == less;
    } else {
      assert more - {k} == less;
    }
  }

  /** Writing a key puts it last. */
  lemma AppendInShape(seen: seq<Slot>, slot: Slot, touches: seq<string>, clock: int, later: int, ttl: nat)
    requires InShape(seen, touches, clock, ttl) && clock <= later && slot.expiry == later + ttl
    requires forall s :: s in seen ==> s.key != slot.key
    ensures InShape(seen + [slot], touches + [slot.key], later, ttl)
  {
    var longer := seen + [slot];
    forall a, b | 0 <= a < b < |longer|
      ensures longer[a].key != longer[b].key && longer[a].expiry <= longer[b].expiry
      ensures longer[b].key in Since(touches + [slot.key], longer[a].key)
    {
      assert seen[a] in seen;
      SinceGrows(touches, slot.key, seen[a].key);
    }
  }

  function KeysOf(seen: seq<Slot>): set<string> {
    set s | s in seen :: s.key
  }

  lemma {:induction false} DistinctKeysCount(seen: seq<Slot>)
    requires KeysDistinct(seen)
    ensures |KeysOf(seen)| == |seen|
  {
    if seen != [] {
      DistinctKeysCount(seen[1..]);
      assert seen == [seen[0]] + seen[1..];
      assert KeysOf(seen) == {seen[0].key} + KeysOf(seen[1..]);
      forall s | s in seen[1..] ensures s.key != seen[0].key {
        var i :| 0 <= i < |seen[1..]| && seen[1..][i] == s;
        assert seen[i + 1] == s;
      }
    }
  }

  lemma SubsetCount(a: set<string>, b: set<string>)
    requires a <= b
    ensures |a| <= |b|
  {
    if a != {} {
      var x :| x in a;
      SubsetCount(a - {x}, b - {x});
    }
  }

  /** Whoever is evicted had at least `cap` other keys written after it. */
  lemma EvictedWereCrowded(seen: seq<Slot>, touches: seq<string>, cap: nat, i: nat)
    requires KeysDistinct(seen) && TouchOrder(seen, touches) && i < |seen| && i + cap < |seen|
    ensures |Since(touches, seen[i].key)| >= cap
  {
    var after := seen[i + 1..];
    forall s | s in after ensures s.key in Since(touches, seen[i].key) {
      var j :| 0 <= j < |after| && after[j] == s;
      assert seen[i + 1 + j] == s;
    }
    assert KeysOf(after) <= Since(touches, seen[i].key);
    DistinctKeysCount(after);
    SubsetCount(KeysOf(after), Since(touches, seen[i].key));
  }

  // ---------------------------------------------------------------- each call keeps the relation

  lemma NewestInShape(seen: seq<Slot>, touches: seq<string>, clock: int, ttl: nat, cap: nat)
    requires InShape(seen, touches, clock, ttl)
    ensures InShape(Newest(seen, cap), touches, clock, ttl) && |Newest(seen, cap)| <= cap
  {
    var newest := Newest(seen, cap);
    var d := |seen| - |newest|;
    assert forall i :: 0 <= i < |newest| ==> newest[i] == seen[i + d];
  }

  lemma TouchInShape(p: Pair, k: string, v: string, later: int, cap: nat, ttl: nat)
    requires InShape(p.seen, p.touches, p.clock, ttl) && p.clock <= later
    ensures InShape(Touched(p.seen, k, v, later + ttl, cap), p.touches + [k], later, ttl)
    ensures |Touched(p.seen, k, v, later + ttl, cap)| <= cap
  {
    DropInShape(p.seen, k, p.touches, p.clock, ttl);
    AppendInShape(Drop(p.seen, k), Slot(k, v, later + ttl), p.touches, p.clock, later, ttl);
    NewestInShape(Drop(p.seen, k) + [Slot(k, v, later + ttl)], p.touches + [k], later, ttl, cap);
  }

  lemma FindUnique(seen: seq<Slot>, s: Slot)
    requires KeysDistinct(seen) && s in seen
    ensures Find(seen, s.key) == Some(s)
  {
    FindIsMember(seen, s.key);
    var i :| 0 <= i < |seen| && seen[i] == s;
    var j :| 0 <= j < |seen| && seen[j] == Find(seen, s.key).value;
  }

  lemma NewestMembers(seen: seq<Slot>, cap: nat)
    ensures forall s :: s in Newest(seen, cap) ==> s in seen
  {
  }

  lemma TouchedMembers(seen: seq<Slot>, k: string, v: string, expiry: int, cap: nat)
    ensures forall s :: s in Touched(seen, k, v, expiry, cap) ==> s == Slot(k, v, expiry) || (s in seen && s.key != k)
  {
    DropMembers(seen, k);
    NewestMembers(Drop(seen, k) + [Slot(k, v, expiry)], cap);
  }

  /** What is found after a write is what was written or what was there, unless it was crowded out. */
  lemma FoundAfterTouch(seen: seq<Slot>, touches: seq<string>, clock: int, x: string, v: string, later: int,
    ttl: nat, cap: nat, s: Slot)
    requires InShape(seen, touches, clock, ttl) && clock <= later
    requires s == Slot(x, v, later + ttl) || (s in seen && s.key != x)
    ensures Find(Touched(seen, x, v, later + ttl, cap), s.key) == Some(s) || |Since(touches + [x], s.key)| >= cap
  {
    var slot := Slot(x, v, later + ttl);
    var longer := Drop(seen, x) + [slot];
    DropInShape(seen, x, touches, clock, ttl);
    AppendInShape(Drop(seen, x), slot, touches, clock, later, ttl);
    NewestInShape(longer, touches + [x], later, ttl, cap);
    assert slot in longer;
    HeldOrCrowded(longer, touches + [x], cap, s);
    if s in Newest(longer, cap) {
      FindUnique(Newest(longer, cap), s);
    }
  }

  lemma NotFoundAfterTouch(seen: seq<Slot>, x: string, v: string, expiry: int, cap: nat, k: string)
    requires k != x && Find(seen, k).None?
    ensures Find(Touched(seen, x, v, expiry, cap), k).None?
  {
    FindIsMember(seen, k);
    TouchedMembers(seen, x, v, expiry, cap);
    FindIsMember(Touched(seen, x, v, expiry, cap), k);
  }

  /** Writing a key brings both guards together on it, whatever stood there before. */
  lemma OwnTouch(seen: seq<Slot>, touches: seq<string>, clock: int, k: string, v: string, later: int, ttl: nat,
    cap: nat)
    requires InShape(seen, touches, clock, ttl) && clock <= later
    ensures KeyMirrors(Touched(seen, k, v, later + ttl, cap), Some((v, later + ttl)), touches + [k], later, k, cap)
  {
    FoundAfterTouch(seen, touches, clock, k, v, later, ttl, cap, Slot(k, v, later + ttl));
    FoundIsTouched(seen, k, v, later + ttl, cap);
    assert (touches + [k])[|touches|] == k;
  }

  lemma FoundIsTouched(seen: seq<Slot>, k: string, v: string, expiry: int, cap: nat)
    ensures
      var found := Find(Touched(seen, k, v, expiry, cap), k);
      found.Some? ==> found.value == Slot(k, v, expiry)
  {
    TouchedMembers(seen, k, v, expiry, cap);
    FindIsMember(Touched(seen, k, v, expiry, cap), k);
  }

  /** Writing another key leaves the relation alone, though it may crowd this one out. */
  lemma OtherTouch(seen: seq<Slot>, entry: Option<(string, int)>, touches: seq<string>, clock: int, k: string,
    x: string, v: string, later: int, ttl: nat, cap: nat)
    requires InShape(seen, touches, clock, ttl) && clock <= later && k != x
    requires KeyMirrors(seen, entry, touches, clock, k, cap)
    ensures KeyMirrors(Touched(seen, x, v, later + ttl, cap), entry, touches + [x], later, k, cap)
  {
    var seen' := Touched(seen, x, v, later + ttl, cap);
    SinceGrows(touches, x, k);
    FindIsMember(seen, k);
    if Find(seen, k).Some? {
      var s := Find(seen, k).value;
      FoundAfterTouch(seen, touches, clock, x, v, later, ttl, cap, s);
      TouchedMembers(seen, x, v, later + ttl, cap);
      FindIsMember(seen', k);
      if Find(seen', k).Some? {
        FindUnique(seen, Find(seen', k).value);
      }
    } else {
      NotFoundAfterTouch(seen, x, v, later + ttl, cap, k);
    }
  }

  lemma NewestHolds(longer: seq<Slot>, cap: nat, i: nat)
    requires i < |longer| <= i + cap
    ensures longer[i] in Newest(longer, cap)
  {
    if |longer| > cap {
      assert Newest(longer, cap)[i - (|longer| - cap)] == longer[i];
    }
  }

  lemma HeldOrCrowded(longer: seq<Slot>, touches: seq<string>, cap: nat, s: Slot)
    requires KeysDistinct(longer) && TouchOrder(longer, touches) && s in longer
    ensures s in Newest(longer, cap) || |Since(touches, s.key)| >= cap
  {
    var i :| 0 <= i < |longer| && longer[i] == s;
    if i + cap < |longer| {
      EvictedWereCrowded(longer, touches, cap, i);
    } else {
      NewestHolds(longer, cap, i);
    }
  }

  lemma PurgeInShape(seen: seq<Slot>, k: string, touches: seq<string>, clock: int, now: int, ttl: nat)
    requires InShape(seen, touches, clock, ttl) && clock <= now
    ensures InShape(Purged(seen, k, now), touches, now, ttl) && |Purged(seen, k, now)| <= |seen|
  {
    DropInShape(seen, k, touches, clock, ttl);
  }

  lemma {:induction false} FindAfterDrop(seen: seq<Slot>, x: string, k: string)
    ensures Find(Drop(seen, x), k) == if k == x then None else Find(seen, k)
  {
    if seen != [] {
      FindAfterDrop(seen[1..], x, k);
    }
  }

  /** Looking a key up forgets it only once it has expired. */
  lemma PurgeMirrors(seen: seq<Slot>, entry: Option<(string, int)>, touches: seq<string>, clock: int, k: string,
    x: string, now: int, cap: nat)
    requires KeyMirrors(seen, entry, touches, clock, k, cap) && clock <= now
    ensures KeyMirrors(Purged(seen, x, now), entry, touches, now, k, cap)
  {
    FindAfterDrop(seen, x, k);
  }

  /** While fewer than `cap` other keys were written since, the size bound does not show. */
  lemma SameAnswer(p: Pair, k: string, now: int, cap: nat)
    requires Mirrors(p, k, cap) && p.clock <= now && Fresh(p.touches, k, cap)
    ensures Live(p.seen, k, now) == LiveIn(p.full, k, now)
  {
  }

  // ---------------------------------------------------------------- whole runs

  function Run(ops: seq<Op>, start: int, cap: nat, ttl: nat): Pair {
    if ops == [] then Pair([], map[], [], start)
    else Perform(Run(ops[..|ops| - 1], start, cap, ttl), ops[|ops| - 1], cap, ttl)
  }

  function Clock(ops: seq<Op>, start: int): int {
    if ops == [] then start else EndOf(ops[|ops| - 1])
  }

  predicate ClockNeverBack(ops: seq<Op>, start: int) {
    ops == [] || (
      && ClockNeverBack(ops[..|ops| - 1], start)
      && Clock(ops[..|ops| - 1], start) <= StartOf(ops[|ops| - 1]) <= EndOf(ops[|ops| - 1]))
  }

  /** Since it was last set, key `k` was looked up only while fewer than `cap` other keys were written since. */
  predicate Uncrowded(ops: seq<Op>, start: int, cap: nat, ttl: nat, k: string) {
    ops == [] ||
    var op, earlier := ops[|ops| - 1], ops[..|ops| - 1];
    (op.SetOp? && op.key == k) ||
    (Uncrowded(earlier, start, cap, ttl, k) && (op.key == k ==> Fresh(Run(earlier, start, cap, ttl).touches, k, cap)))
  }

  lemma PerformInShape(p: Pair, op: Op, cap: nat, ttl: nat)
    requires InShape(p.seen, p.touches, p.clock, ttl) && |p.seen| <= cap
    requires p.clock <= StartOf(op) <= EndOf(op)
    ensures
      var p' := Perform(p, op, cap, ttl);
      InShape(p'.seen, p'.touches, p'.clock, ttl) && |p'.seen| <= cap && p'.clock == EndOf(op)
  {
    match op
    case ClaimOp(k, now, later) =>
      PurgeInShape(p.seen, k, p.touches, p.clock, now, ttl);
      TouchInShape(PurgedPair(p, k, now), k, "1", later, cap, ttl);
    case StateOp(k, now) => PurgeInShape(p.seen, k, p.touches, p.clock, now, ttl);
    case SetOp(k, v, now) => TouchInShape(p, k, v, now, cap, ttl);
  }

  /** Any run of calls: never over the cap, in last-touch order, expiries never decreasing along it. */
  lemma {:induction false} BoundedAndOrdered(ops: seq<Op>, start: int, cap: nat, ttl: nat)
    requires ClockNeverBack(ops, start)
    ensures
      var p := Run(ops, start, cap, ttl);
      |p.seen| <= cap && InShape(p.seen, p.touches, p.clock, ttl) && p.clock == Clock(ops, start)
  {
    if ops != [] {
      BoundedAndOrdered(ops[..|ops| - 1], start, cap, ttl);
      PerformInShape(Run(ops[..|ops| - 1], start, cap, ttl), ops[|ops| - 1], cap, ttl);
    }
  }

  function PurgedPair(p: Pair, k: string, now: int): Pair {
    p.(seen := Purged(p.seen, k, now), clock := now)
  }

  lemma ClockMoves(seen: seq<Slot>, entry: Option<(string, int)>, touches: seq<string>, clock: int, later: int,
    k: string, cap: nat)
    requires KeyMirrors(seen, entry, touches, clock, k, cap) && clock <= later
    ensures KeyMirrors(seen, entry, touches, later, k, cap)
  {
  }

  /** A call about another key, whichever way either guard answers it, leaves the relation alone. */
  lemma OtherMirrors(p: Pair, op: Op, cap: nat, ttl: nat, k: string)
    requires InShape(p.seen, p.touches, p.clock, ttl) && Mirrors(p, k, cap)
    requires p.clock <= StartOf(op) <= EndOf(op) && op.key != k
    ensures Mirrors(Perform(p, op, cap, ttl), k, cap)
  {
    var e := EntryOf(p.full, k);
    assert EntryOf(Perform(p, op, cap, ttl).full, k) == e;
    match op
    case ClaimOp(x, now, later) =>
      var purged := Purged(p.seen, x, now);
      PurgeMirrors(p.seen, e, p.touches, p.clock, k, x, now, cap);
      PurgeInShape(p.seen, x, p.touches, p.clock, now, ttl);
      OtherTouch(purged, e, p.touches, now, k, x, "1", later, ttl, cap);
      ClockMoves(purged, e, p.touches, now, later, k, cap);
    case StateOp(x, now) => PurgeMirrors(p.seen, e, p.touches, p.clock, k, x, now, cap);
    case SetOp(x, v, now) => OtherTouch(p.seen, e, p.touches, p.clock, k, x, v, now, ttl, cap);
  }

  /** A lookup of an uncrowded key is answered alike. */
  lemma OwnAnswer(p: Pair, op: Op, cap: nat)
    requires Mirrors(p, op.key, cap) && p.clock <= StartOf(op) && (op.SetOp? || Fresh(p.touches, op.key, cap))
    ensures Answers(p, op).0 == Answers(p, op).1
  {
    if !op.SetOp? {
      SameAnswer(p, op.key, op.now, cap);
    }
  }

  lemma OwnClaimWon(p: Pair, k: string, now: int, later: int, cap: nat, ttl: nat)
    requires InShape(p.seen, p.touches, p.clock, ttl) && p.clock <= now <= later
    requires Live(p.seen, k, now).None? && LiveIn(p.full, k, now).None?
    ensures Mirrors(Perform(p, ClaimOp(k, now, later), cap, ttl), k, cap)
  {
    PurgeInShape(p.seen, k, p.touches, p.clock, now, ttl);
    OwnTouch(Purged(p.seen, k, now), p.touches, now, k, "1", later, ttl, cap);
  }

  lemma OwnClaimLost(p: Pair, k: string, now: int, later: int, cap: nat, ttl: nat)
    requires Mirrors(p, k, cap) && p.clock <= now <= later
    requires Live(p.seen, k, now).Some? && LiveIn(p.full, k, now).Some?
    ensures Mirrors(Perform(p, ClaimOp(k, now, later), cap, ttl), k, cap)
  {
    PurgeMirrors(p.seen, EntryOf(p.full, k), p.touches, p.clock, k, k, now, cap);
    ClockMoves(Purged(p.seen, k, now), EntryOf(p.full, k), p.touches, now, later, k, cap);
  }

  lemma OwnClaim(p: Pair, k: string, now: int, later: int, cap: nat, ttl: nat)
    requires InShape(p.seen, p.touches, p.clock, ttl) && Mirrors(p, k, cap)
    requires p.clock <= now <= later && Fresh(p.touches, k, cap)
    ensures Mirrors(Perform(p, ClaimOp(k, now, later), cap, ttl), k, cap)
  {
    SameAnswer(p, k, now, cap);
    if Live(p.seen, k, now).None? {
      OwnClaimWon(p, k, now, later, cap, ttl);
    } else {
      OwnClaimLost(p, k, now, later, cap, ttl);
    }
  }

  /** So both guards stay alike on a key as long as it is asked for uncrowded, and become alike once it is set. */
  lemma StepMirrors(p: Pair, op: Op, cap: nat, ttl: nat, k: string)
    requires InShape(p.seen, p.touches, p.clock, ttl) && p.clock <= StartOf(op) <= EndOf(op)
    requires (op.SetOp? && op.key == k) || (Mirrors(p, k, cap) && (op.key == k ==> Fresh(p.touches, k, cap)))
    ensures Mirrors(Perform(p, op, cap, ttl), k, cap)
  {
    if op.key != k {
      OtherMirrors(p, op, cap, ttl, k);
    } else if op.SetOp? {
      OwnTouch(p.seen, p.touches, p.clock, k, op.value, op.now, ttl, cap);
    } else if op.ClaimOp? {
      OwnClaim(p, k, op.now, op.later, cap, ttl);
    } else {
      PurgeMirrors(p.seen, EntryOf(p.full, k), p.touches, p.clock, k, k, op.now, cap);
    }
  }

  lemma {:induction false} RunMirrors(ops: seq<Op>, start: int, cap: nat, ttl: nat, k: string)
    requires ClockNeverBack(ops, start) && Uncrowded(ops, start, cap, ttl, k)
    ensures Mirrors(Run(ops, start, cap, ttl), k, cap)
  {
    if ops != [] {
      var op, earlier := ops[|ops| - 1], ops[..|ops| - 1];
      BoundedAndOrdered(earlier, start, cap, ttl);
      if !(op.SetOp? && op.key == k) {
        RunMirrors(earlier, start, cap, ttl, k);
      }
      StepMirrors(Run(earlier, start, cap, ttl), op, cap, ttl, k);
    }
  }

  /**
   Key by key: as long as a key, since it was last set, is looked up only while fewer than `cap` other keys
   were written since, every answer about it is the one an unbounded guard gives - whatever happened to
   other keys meanwhile.
   */
  lemma AnswersLikeUnbounded(ops: seq<Op>, op: Op, start: int, cap: nat, ttl: nat)
    requires ClockNeverBack(ops + [op], start) && Uncrowded(ops + [op], start, cap, ttl, op.key)
    ensures
      var (bounded, unbounded) := Answers(Run(ops, start, cap, ttl), op);
      bounded == unbounded
  {
    assert (ops + [op])[..|ops|] == ops;
    if !op.SetOp? {
      RunMirrors(ops, start, cap, ttl, op.key);
      BoundedAndOrdered(ops, start, cap, ttl);
      OwnAnswer(Run(ops, start, cap, ttl), op, cap);
    }
  }
}
