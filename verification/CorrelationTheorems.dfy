/** What the correlation engine keeps, key by key, over any sequence of calls. */
module CorrelationTheorems {
  import opened Prelude
  import opened Correlation

  function OfKey(log: seq<Closing>, k: string): seq<Closing> {
    if log == [] then []
    else
      var last := |log| - 1;
      if log[last].key == k then OfKey(log[..last], k) + [log[last]] else OfKey(log[..last], k)
  }

  function Members(log: seq<Closing>): seq<Scored> {
    if log == [] then [] else Members(log[..|log| - 1]) + log[|log| - 1].members
  }

  function BucketAt(st: State, k: string): Option<Bucket> {
    if k in st.buckets then Some(st.buckets[k]) else None
  }

  function Open(st: State, k: string): seq<Scored> {
    if k in st.buckets then st.buckets[k].events else []
  }

  /** The anomalous events of one key, in arrival order. */
  function AnomalousOf(cfg: Config, ops: seq<Op>, k: string): seq<Scored> {
    if ops == [] then []
    else
      var last := |ops| - 1;
      var op := ops[last];
      if op.Add? && op.scored.anomalous && KeyOf(cfg, op.scored.event) == k
      then AnomalousOf(cfg, ops[..last], k) + [op.scored]
      else AnomalousOf(cfg, ops[..last], k)
  }

  lemma {:induction false} OfKeyConcat(a: seq<Closing>, b: seq<Closing>, k: string)
    ensures OfKey(a + b, k) == OfKey(a, k) + OfKey(b, k)
  {
    if b == [] {
      assert a + b == a;
    } else {
      OfKeyConcat(a, b[..|b| - 1], k);
      assert (a + b)[..|a + b| - 1] == a + b[..|b| - 1];
    }
  }

  // ---------------------------------------------------------------- one call, seen from one key

  /** Closing bucket `k`: its record, if the verdict closes it. */
  function CloseRecord(cfg: Config, b: Option<Bucket>, k: string, reliable: set<Signature>): seq<Closing>
    requires b.Some? ==> b.value.events != []
  {
    if b.None? || Judge(cfg, b.value, reliable).None? then []
    else [Closing(k, b.value.events, Judge(cfg, b.value, reliable).value, reliable)]
  }

  function AfterClose(cfg: Config, b: Option<Bucket>, reliable: set<Signature>): Option<Bucket>
    requires b.Some? ==> b.value.events != []
  {
    if b.None? || Judge(cfg, b.value, reliable).None? then b else None
  }

  lemma CloseSeenFrom(cfg: Config, st: State, closed: string, reliable: set<Signature>, k: string)
    requires NoEmptyBucket(st.buckets)
    ensures
      var st' := CloseKey(cfg, st, closed, reliable);
      && st'.log == st.log + CloseRecord(cfg, BucketAt(st, closed), closed, reliable)
      && OfKey(st'.log, k) ==
        OfKey(st.log, k) + (if k == closed then CloseRecord(cfg, BucketAt(st, k), k, reliable) else [])
      && BucketAt(st', k) == if k == closed then AfterClose(cfg, BucketAt(st, k), reliable) else BucketAt(st, k)
  {
    var record := CloseRecord(cfg, BucketAt(st, closed), closed, reliable);
    OfKeyConcat(st.log, record, k);
    assert CloseKey(cfg, st, closed, reliable).log == st.log + record;
  }

  lemma {:induction false} FlushSeenFrom(cfg: Config, st: State, keys: seq<string>, reliable: set<Signature>, k: string)
    requires NoEmptyBucket(st.buckets) && Distinct(keys)
    ensures
      var st' := FlushKeys(cfg, st, keys, reliable);
      && OfKey(st'.log, k) ==
        OfKey(st.log, k) + (if k in keys then CloseRecord(cfg, BucketAt(st, k), k, reliable) else [])
      && BucketAt(st', k) == if k in keys then AfterClose(cfg, BucketAt(st, k), reliable) else BucketAt(st, k)
    decreases |keys|
  {
    if keys != [] {
      CloseSeenFrom(cfg, st, keys[0], reliable, k);
      FlushSeenFrom(cfg, CloseKey(cfg, st, keys[0], reliable), keys[1..], reliable, k);
      assert keys == [keys[0]] + keys[1..];
    }
  }

  lemma {:induction false} ForgetSeenFrom(st: State, keys: seq<string>, k: string)
    requires (forall x :: x in keys ==> x in st.buckets) && Distinct(keys)
    ensures OfKey(ForgetKeys(st, keys), k) ==
      if k in keys then [Closing(k, st.buckets[k].events, Forgotten, {})] else []
  {
    if keys != [] {
      var first := [Closing(keys[0], st.buckets[keys[0]].events, Forgotten, {})];
      ForgetSeenFrom(st, keys[1..], k);
      OfKeyConcat(first, ForgetKeys(st, keys[1..]), k);
      assert first[..0] == [];
      assert keys == [keys[0]] + keys[1..];
    }
  }

  function Grown(b: Option<Bucket>, s: Scored): Bucket {
    if b.Some? then Bucket(b.value.events + [s], MaxReal(b.value.peak, s.score)) else Bucket([s], MaxReal(0.0, s.score))
  }

  /** A call as it looks to one key: a bucket that may be closed and may take an event. */
  function BucketStep(cfg: Config, b: Option<Bucket>, op: Op, mine: bool, k: string): (Option<Bucket>, seq<Closing>)
    requires b.Some? ==> b.value.events != []
  {
    match op
    case Add(s, reliable) =>
      if !mine || !s.anomalous then (b, [])
      else
        var closing := b.Some? && Span(b.value.events, s.event) > cfg.window;
        var b1 := if closing then AfterClose(cfg, b, reliable) else b;
        var record := if closing then CloseRecord(cfg, b, k, reliable) else [];
        (Some(Grown(b1, s)), record)
    case Flush(reliable) => (AfterClose(cfg, b, reliable), CloseRecord(cfg, b, k, reliable))
    case Pop => (b, [])
    case Reset => (None, if b.Some? then [Closing(k, b.value.events, Forgotten, {})] else [])
  }

  predicate Mine(cfg: Config, op: Op, k: string) {
    op.Add? && KeyOf(cfg, op.scored.event) == k
  }

  lemma PutSeenFrom(st: State, put: string, s: Scored, k: string)
    ensures PutEvent(st, put, s).log == st.log
    ensures BucketAt(PutEvent(st, put, s), k) == if k == put then Some(Grown(BucketAt(st, k), s)) else BucketAt(st, k)
  {
  }

  /** What one call to `AddEvent` does to the key it is about, and to no other. */
  lemma AddSeenFrom(cfg: Config, st: State, s: Scored, reliable: set<Signature>, k: string)
    requires Wellformed(st)
    ensures
      var st' := AddEvent(cfg, st, s, reliable);
      var (b', record) := BucketStep(cfg, BucketAt(st, k), Add(s, reliable), Mine(cfg, Add(s, reliable), k), k);
      BucketAt(st', k) == b' && OfKey(st'.log, k) == OfKey(st.log, k) + record
  {
    if s.anomalous {
      var put := KeyOf(cfg, s.event);
      if put in st.buckets && Span(st.buckets[put].events, s.event) > cfg.window {
        var closed := CloseKey(cfg, st, put, reliable);
        CloseSeenFrom(cfg, st, put, reliable, k);
        PutSeenFrom(closed, put, s, k);
        assert AddEvent(cfg, st, s, reliable) == PutEvent(closed, put, s);
      } else {
        PutSeenFrom(st, put, s, k);
        assert AddEvent(cfg, st, s, reliable) == PutEvent(st, put, s);
      }
    }
  }

  /** Every call acts on each key's bucket alone. */
  lemma PerformSeenFrom(cfg: Config, st: State, op: Op, k: string)
    requires Wellformed(st)
    ensures
      var st' := Perform(cfg, st, op);
      var (b', record) := BucketStep(cfg, BucketAt(st, k), op, Mine(cfg, op, k), k);
      BucketAt(st', k) == b' && OfKey(st'.log, k) == OfKey(st.log, k) + record
  {
    match op
    case Add(s, reliable) =>
      AddSeenFrom(cfg, st, s, reliable, k);
    case Flush(reliable) =>
      FlushSeenFrom(cfg, st, st.order, reliable, k);
    case Pop =>
    case Reset =>
      ForgetSeenFrom(st, st.order, k);
      OfKeyConcat(st.log, ForgetKeys(st, st.order), k);
  }

  // ---------------------------------------------------------------- conservation

  lemma MembersConcat(a: seq<Closing>, b: seq<Closing>)
    ensures Members(a + b) == Members(a) + Members(b)
  {
    if b == [] {
      assert a + b == a;
    } else {
      assert (a + b)[..|a + b| - 1] == a + b[..|b| - 1];
    }
  }

  predicate Taken(cfg: Config, op: Op, k: string) {
    op.Add? && op.scored.anomalous && KeyOf(cfg, op.scored.event) == k
  }

  lemma CallConserves(cfg: Config, st: State, op: Op, k: string)
    requires Wellformed(st)
    ensures
      var st' := Perform(cfg, st, op);
      Members(OfKey(st'.log, k)) + Open(st', k) ==
        Members(OfKey(st.log, k)) + Open(st, k) + (if Taken(cfg, op, k) then [op.scored] else [])
  {
    PerformSeenFrom(cfg, st, op, k);
    BucketStepConserves(cfg, BucketAt(st, k), op, Mine(cfg, op, k), k);
    RecordShifts(OfKey(st.log, k), BucketStep(cfg, BucketAt(st, k), op, Mine(cfg, op, k), k).1,
      Open(st, k), Open(Perform(cfg, st, op), k), if Taken(cfg, op, k) then [op.scored] else []);
  }

  lemma RecordShifts(log: seq<Closing>, record: seq<Closing>, open: seq<Scored>, open': seq<Scored>, taken: seq<Scored>)
    requires Members(record) + open' == open + taken
    ensures Members(log + record) + open' == Members(log) + open + taken
  {
    MembersConcat(log, record);
    assert Members(log) + Members(record) + open' == Members(log) + (Members(record) + open');
    assert Members(log) + (open + taken) == Members(log) + open + taken;
  }

  /** The closed windows of a key followed by its open bucket are exactly its anomalous events, in order. */
  lemma {:induction false} NoEventLostOrRepeated(cfg: Config, ops: seq<Op>, k: string)
    ensures Members(OfKey(Run(cfg, ops).log, k)) + Open(Run(cfg, ops), k) == AnomalousOf(cfg, ops, k)
  {
    if ops != [] {
      var last := |ops| - 1;
      NoEventLostOrRepeated(cfg, ops[..last], k);
      CallConserves(cfg, Run(cfg, ops[..last]), ops[last], k);
    }
  }

  function EventsOf(b: Option<Bucket>): seq<Scored> {
    if b.Some? then b.value.events else []
  }

  lemma BucketStepConserves(cfg: Config, b: Option<Bucket>, op: Op, mine: bool, k: string)
    requires b.Some? ==> b.value.events != []
    ensures
      var (b', record) := BucketStep(cfg, b, op, mine, k);
      && Members(record) + EventsOf(b') ==
         EventsOf(b) + (if mine && op.Add? && op.scored.anomalous then [op.scored] else [])
      && |record| <= 1
  {
    var (b', record) := BucketStep(cfg, b, op, mine, k);
    assert |record| == 1 ==> record[..0] == [];
  }

  // ---------------------------------------------------------------- one key in isolation

  /** The calls a single-bucket engine would see for key `k`. */
  function OpsFor(cfg: Config, ops: seq<Op>, k: string): seq<Op> {
    if ops == [] then []
    else
      var last := |ops| - 1;
      if ops[last].Add? && !Mine(cfg, ops[last], k) then OpsFor(cfg, ops[..last], k)
      else OpsFor(cfg, ops[..last], k) + [ops[last]]
  }

  /** Closings with the key left out. */
  function Anonymous(log: seq<Closing>): seq<Closing> {
    if log == [] then [] else Anonymous(log[..|log| - 1]) + [log[|log| - 1].(key := "")]
  }

  lemma AnonymousConcat(a: seq<Closing>, b: seq<Closing>)
    ensures Anonymous(a + b) == Anonymous(a) + Anonymous(b)
  {
    if b == [] {
      assert a + b == a;
    } else {
      assert (a + b)[..|a + b| - 1] == a + b[..|b| - 1];
    }
  }

  /** The two engines show the same bucket and the same closings for `k`. */
  ghost predicate Alike(st: State, single: State, k: string) {
    BucketAt(st, k) == BucketAt(single, "") && Anonymous(OfKey(st.log, k)) == Anonymous(OfKey(single.log, ""))
  }

  lemma StaysAlike(cfg: Config, st: State, single: State, op: Op, k: string)
    requires Wellformed(st) && Wellformed(single) && Alike(st, single, k)
    requires op.Add? ==> Mine(cfg, op, k)
    ensures Alike(Perform(cfg, st, op), Perform(cfg.(byService := false), single, op), k)
  {
    var one := cfg.(byService := false);
    PerformSeenFrom(cfg, st, op, k);
    PerformSeenFrom(one, single, op, "");
    SameStep(cfg, BucketAt(st, k), op, k);
    AnonymousConcat(OfKey(st.log, k), BucketStep(cfg, BucketAt(st, k), op, Mine(cfg, op, k), k).1);
    AnonymousConcat(OfKey(single.log, ""), BucketStep(one, BucketAt(st, k), op, Mine(one, op, ""), "").1);
  }

  lemma OtherKeysDoNotMatter(cfg: Config, st: State, single: State, op: Op, k: string)
    requires Wellformed(st) && Alike(st, single, k)
    requires op.Add? && !Mine(cfg, op, k)
    ensures Alike(Perform(cfg, st, op), single, k)
  {
    PerformSeenFrom(cfg, st, op, k);
  }

  /**
   What the engine emits, suppresses and discards for one key is what an engine with a single bucket
   does on that key's events and the same flushes and resets.
   */
  lemma {:induction false} KeysAreIndependent(cfg: Config, ops: seq<Op>, k: string)
    ensures Alike(Run(cfg, ops), Run(cfg.(byService := false), OpsFor(cfg, ops, k)), k)
  {
    if ops != [] {
      var last := |ops| - 1;
      var op, others := ops[last], OpsFor(cfg, ops[..last], k);
      KeysAreIndependent(cfg, ops[..last], k);
      if op.Add? && !Mine(cfg, op, k) {
        OtherKeysDoNotMatter(cfg, Run(cfg, ops[..last]), Run(cfg.(byService := false), others), op, k);
      } else {
        StaysAlike(cfg, Run(cfg, ops[..last]), Run(cfg.(byService := false), others), op, k);
        assert (others + [op])[..|others|] == others;
      }
    }
  }

  lemma SameStep(cfg: Config, b: Option<Bucket>, op: Op, k: string)
    requires b.Some? ==> b.value.events != []
    requires op.Add? ==> Mine(cfg, op, k)
    ensures
      var one := cfg.(byService := false);
      var (b1, record1) := BucketStep(cfg, b, op, Mine(cfg, op, k), k);
      var (b2, record2) := BucketStep(one, b, op, Mine(one, op, ""), "");
      b1 == b2 && Anonymous(record1) == Anonymous(record2)
  {
    var one := cfg.(byService := false);
    assert forall v: Bucket, r :: v.events != [] ==> Judge(cfg, v, r) == Judge(one, v, r);
  }

  // ---------------------------------------------------------------- peaks and verdicts

  /** `peak` is the largest score of the events, or 0 if they are all negative. */
  ghost predicate PeakOf(events: seq<Scored>, peak: real) {
    && 0.0 <= peak
    && (forall s :: s in events ==> s.score <= peak)
    && (peak == 0.0 || exists s :: s in events && s.score == peak)
  }

  /** `first` and `last` are the times of the earliest and of the latest event. */
  ghost predicate Spans(events: seq<Scored>, first: real, last: real) {
    && (forall s :: s in events ==> first <= s.event.ts <= last)
    && (exists s :: s in events && s.event.ts == first)
    && (exists s :: s in events && s.event.ts == last)
  }

  lemma {:induction false} EarliestAndLatest(events: seq<Scored>)
    requires events != []
    ensures Spans(events, Earliest(events), Latest(events))
  {
    if |events| == 1 {
      assert events[0] in events;
    } else {
      var rest := events[1..];
      EarliestAndLatest(rest);
      assert events == [events[0]] + rest;
      var s :| s in rest && s.event.ts == Earliest(rest);
      var t :| t in rest && t.event.ts == Latest(rest);
      assert events[0] in events && s in events && t in events;
    }
  }

  /** The situation tells of these events and of nothing else. */
  ghost predicate Sums(s: Situation, members: seq<Scored>) {
    && s.members == members
    && s.signature == (set m | m in members :: m.event.fingerprint)
    && Spans(members, s.firstSeen, s.lastSeen)
    && PeakOf(members, s.peakScore)
    && (s.severity == "high" <==> s.peakScore >= 8.0)
    && (s.severity == "medium" <==> 5.0 <= s.peakScore < 8.0)
    && (s.severity == "low" <==> s.peakScore < 5.0)
  }

  /** A closed window's verdict is the one its own events and the signatures proven at that time earn. */
  ghost predicate Earned(cfg: Config, c: Closing) {
    var n, signature := |c.members|, set m | m in c.members :: m.event.fingerprint;
    && n > 0
    && (!c.verdict.Forgotten? ==>
          && (c.verdict.Discarded? <==> n < cfg.minEvents)
          && (c.verdict.Emitted? <==> n >= cfg.minEvents && signature !in c.reliable)
          && (c.verdict.Quieted? <==> n >= cfg.minEvents && signature in c.reliable && cfg.quiet)
          && (c.verdict.Suppressed? <==> n >= cfg.minEvents && signature in c.reliable && !cfg.quiet))
    && (c.verdict.Emitted? || c.verdict.Quieted? || c.verdict.Suppressed? ==>
          && Sums(c.verdict.situation, c.members)
          && c.verdict.situation.handling == if c.verdict.Quieted? then "quiet" else "normal")
    && (c.verdict.Discarded? ==> c.members[n - 1].event.ts - c.members[0].event.ts >= cfg.window)
  }

  lemma PeakGrows(events: seq<Scored>, peak: real, s: Scored)
    requires PeakOf(events, peak)
    ensures PeakOf(events + [s], MaxReal(peak, s.score))
  {
    assert s in events + [s];
    if peak != 0.0 && peak >= s.score {
      var t :| t in events && t.score == peak;
      assert t in events + [s];
    }
  }

  lemma VerdictIsEarned(cfg: Config, b: Bucket, k: string, reliable: set<Signature>)
    requires b.events != [] && PeakOf(b.events, b.peak) && Judge(cfg, b, reliable).Some?
    ensures Earned(cfg, Closing(k, b.events, Judge(cfg, b, reliable).value, reliable))
  {
    EarliestAndLatest(b.events);
  }

  lemma StepEarns(cfg: Config, b: Option<Bucket>, op: Op, mine: bool, k: string)
    requires b.Some? ==> b.value.events != [] && PeakOf(b.value.events, b.value.peak)
    ensures
      var (b', record) := BucketStep(cfg, b, op, mine, k);
      && (b'.Some? ==> PeakOf(b'.value.events, b'.value.peak))
      && (forall c :: c in record ==> Earned(cfg, c))
  {
    if op.Add? {
      PeakGrows([], 0.0, op.scored);
      assert [] + [op.scored] == [op.scored];
      if b.Some? {
        PeakGrows(b.value.events, b.value.peak, op.scored);
      }
    }
    if (op.Add? || op.Flush?) && b.Some? && Judge(cfg, b.value, op.reliable).Some? {
      VerdictIsEarned(cfg, b.value, k, op.reliable);
    }
  }

  /** The stored peak is the bucket's largest score, and every verdict is the one the window earned. */
  lemma {:induction false} PeaksAndVerdicts(cfg: Config, ops: seq<Op>, k: string)
    ensures k in Run(cfg, ops).buckets ==> PeakOf(Run(cfg, ops).buckets[k].events, Run(cfg, ops).buckets[k].peak)
    ensures forall c :: c in OfKey(Run(cfg, ops).log, k) ==> Earned(cfg, c)
  {
    if ops != [] {
      var last := |ops| - 1;
      var st := Run(cfg, ops[..last]);
      PeaksAndVerdicts(cfg, ops[..last], k);
      PerformSeenFrom(cfg, st, ops[last], k);
      StepEarns(cfg, BucketAt(st, k), ops[last], Mine(cfg, ops[last], k), k);
    }
  }

  // ---------------------------------------------------------------- how long a window is

  ghost predicate InTimeOrder(ops: seq<Op>) {
    forall i, j :: 0 <= i < j < |ops| && ops[i].Add? && ops[j].Add? ==> ops[i].scored.event.ts <= ops[j].scored.event.ts
  }

  /** All events but possibly the last lie within the window of the first; all do when one event suffices. */
  ghost predicate Compact(cfg: Config, events: seq<Scored>) {
    forall i :: 0 <= i < |events| && (i < |events| - 1 || cfg.minEvents <= 1) ==>
      events[i].event.ts - events[0].event.ts <= cfg.window
  }

  ghost predicate Ordered(events: seq<Scored>) {
    forall i, j :: 0 <= i < j < |events| ==> events[i].event.ts <= events[j].event.ts
  }

  ghost predicate Comes(ops: seq<Op>, s: Scored) {
    exists i :: 0 <= i < |ops| && ops[i].Add? && ops[i].scored == s
  }

  lemma {:induction false} AnomalousComeFromOps(cfg: Config, ops: seq<Op>, k: string)
    ensures forall s :: s in AnomalousOf(cfg, ops, k) ==> Comes(ops, s)
  {
    if ops != [] {
      var last := |ops| - 1;
      AnomalousComeFromOps(cfg, ops[..last], k);
      forall s | s in AnomalousOf(cfg, ops, k) ensures Comes(ops, s) {
        if s in AnomalousOf(cfg, ops[..last], k) {
          assert Comes(ops[..last], s);
          var i :| 0 <= i < last && ops[..last][i].Add? && ops[..last][i].scored == s;
          assert ops[i].scored == s;
        } else {
          assert ops[last].scored == s;
        }
      }
    }
  }

  /** An event that arrives in time order is no earlier than anything in the open bucket. */
  lemma NewestIsLatest(cfg: Config, ops: seq<Op>, op: Op, k: string, s: Scored)
    requires InTimeOrder(ops + [op]) && op.Add? && s in Open(Run(cfg, ops), k)
    ensures s.event.ts <= op.scored.event.ts
  {
    NoEventLostOrRepeated(cfg, ops, k);
    AnomalousComeFromOps(cfg, ops, k);
    assert s in AnomalousOf(cfg, ops, k);
    assert Comes(ops, s);
    var i :| 0 <= i < |ops| && ops[i].Add? && ops[i].scored == s;
    assert (ops + [op])[i] == ops[i] && (ops + [op])[|ops|] == op;
  }

  /** A bucket that stays compact when it takes an event within the window, or was too thin to close. */
  lemma GrownStaysCompact(cfg: Config, events: seq<Scored>, s: Scored)
    requires Compact(cfg, events) && Ordered(events) && events != []
    requires forall t :: t in events ==> t.event.ts <= s.event.ts
    requires Span(events, s.event) <= cfg.window ||
      (MinEvents(cfg) > 1 && Span(events, events[|events| - 1].event) <= cfg.window)
    ensures Compact(cfg, events + [s]) && Ordered(events + [s])
  {
    var longer := events + [s];
    assert forall i :: 0 <= i < |events| ==> events[i] in events;
    assert forall i :: 0 <= i < |events| ==> Span(events, events[i].event) <= Span(events, events[|events| - 1].event);
    assert forall i :: 0 <= i < |longer| ==> Span(longer, longer[i].event) == Span(events, longer[i].event);
  }

  lemma StepStaysCompact(cfg: Config, b: Option<Bucket>, op: Op, mine: bool, k: string)
    requires b.Some? ==> b.value.events != [] && Compact(cfg, b.value.events) && Ordered(b.value.events)
    requires op.Add? ==> forall s :: s in EventsOf(b) ==> s.event.ts <= op.scored.event.ts
    requires cfg.window >= 0.0
    ensures
      var (b', record) := BucketStep(cfg, b, op, mine, k);
      && (b'.Some? ==> Compact(cfg, b'.value.events) && Ordered(b'.value.events))
      && (forall c :: c in record ==> Compact(cfg, c.members))
  {
    if op.Add? && b.Some? && mine && op.scored.anomalous {
      var closing := Span(b.value.events, op.scored.event) > cfg.window;
      if !closing || AfterClose(cfg, b, op.reliable).Some? {
        GrownStaysCompact(cfg, b.value.events, op.scored);
      }
    }
  }

  /** Fed in time order, every window is compact, closed or open. */
  lemma {:induction false} WindowsAreCompact(cfg: Config, ops: seq<Op>, k: string)
    requires InTimeOrder(ops) && cfg.window >= 0.0
    ensures Compact(cfg, Open(Run(cfg, ops), k)) && Ordered(Open(Run(cfg, ops), k))
    ensures forall c :: c in OfKey(Run(cfg, ops).log, k) ==> Compact(cfg, c.members)
  {
    if ops != [] {
      var last := |ops| - 1;
      var st, op := Run(cfg, ops[..last]), ops[last];
      WindowsAreCompact(cfg, ops[..last], k);
      assert ops == ops[..last] + [op];
      forall s | op.Add? && s in EventsOf(BucketAt(st, k)) ensures s.event.ts <= op.scored.event.ts {
        NewestIsLatest(cfg, ops[..last], op, k, s);
      }
      PerformSeenFrom(cfg, st, op, k);
      StepStaysCompact(cfg, BucketAt(st, k), op, Mine(cfg, op, k), k);
    }
  }

  // ---------------------------------------------------------------- the suppressed queue

  function AllQueued(log: seq<Closing>): seq<Situation> {
    if log == [] then []
    else
      var last := log[|log| - 1].verdict;
      AllQueued(log[..|log| - 1]) + if last.Quieted? || last.Suppressed? then [last.situation] else []
  }

  lemma CloseQueues(cfg: Config, st: State, k: string, reliable: set<Signature>)
    requires NoEmptyBucket(st.buckets) && st.popped + st.queue == AllQueued(st.log)
    ensures
      var st' := CloseKey(cfg, st, k, reliable);
      st'.popped + st'.queue == AllQueued(st'.log)
  {
    var st' := CloseKey(cfg, st, k, reliable);
    if st'.log != st.log {
      assert st'.log[..|st.log|] == st.log;
      assert st'.popped + st'.queue == (st.popped + st.queue) + Queued(st'.log[|st.log|].verdict);
    }
  }

  lemma {:induction false} FlushQueues(cfg: Config, st: State, keys: seq<string>, reliable: set<Signature>)
    requires NoEmptyBucket(st.buckets) && st.popped + st.queue == AllQueued(st.log)
    ensures
      var st' := FlushKeys(cfg, st, keys, reliable);
      st'.popped + st'.queue == AllQueued(st'.log)
    decreases |keys|
  {
    if keys != [] {
      CloseQueues(cfg, st, keys[0], reliable);
      FlushQueues(cfg, CloseKey(cfg, st, keys[0], reliable), keys[1..], reliable);
    }
  }

  lemma AddQueues(cfg: Config, st: State, s: Scored, reliable: set<Signature>)
    requires Wellformed(st) && st.popped + st.queue == AllQueued(st.log)
    ensures
      var st' := Perform(cfg, st, Add(s, reliable));
      st'.popped + st'.queue == AllQueued(st'.log)
  {
    CloseQueues(cfg, st, KeyOf(cfg, s.event), reliable);
  }

  lemma PopQueues(cfg: Config, st: State)
    requires Wellformed(st) && st.popped + st.queue == AllQueued(st.log)
    ensures
      var st' := Perform(cfg, st, Pop);
      st'.popped + st'.queue == AllQueued(st'.log)
  {
    assert st.queue != [] ==> st.popped + [st.queue[0]] + st.queue[1..] == st.popped + st.queue;
  }

  lemma PerformQueues(cfg: Config, st: State, op: Op)
    requires Wellformed(st) && !op.Reset? && st.popped + st.queue == AllQueued(st.log)
    ensures
      var st' := Perform(cfg, st, op);
      st'.popped + st'.queue == AllQueued(st'.log)
  {
    match op
    case Add(s, reliable) => AddQueues(cfg, st, s, reliable);
    case Flush(reliable) => FlushQueues(cfg, st, st.order, reliable);
    case Pop => PopQueues(cfg, st);
  }

  /** Without a reset, no suppressed situation is lost: what was popped and what is queued is all of them. */
  lemma {:induction false} SuppressedAreQueued(cfg: Config, ops: seq<Op>)
    requires forall op :: op in ops ==> !op.Reset?
    ensures Run(cfg, ops).popped + Run(cfg, ops).queue == AllQueued(Run(cfg, ops).log)
  {
    if ops != [] {
      var last := |ops| - 1;
      SuppressedAreQueued(cfg, ops[..last]);
      PerformQueues(cfg, Run(cfg, ops[..last]), ops[last]);
    }
  }
}
