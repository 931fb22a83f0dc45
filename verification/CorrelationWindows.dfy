/** Which events share a window, told from their service labels alone, and when a window closes. */
module CorrelationWindows {
  import opened Prelude
  import opened Correlation
  import opened CorrelationTheorems

  // ---------------------------------------------------------------- grouping by service

  predicate Unlabelled(e: Event) {
    e.service.None? || e.service.value == ""
  }

  predicate LabelledUnknown(e: Event) {
    e.service == Some("unknown")
  }

  /** The same service, or no service at all. */
  predicate SameService(a: Event, b: Event) {
    if Unlabelled(a) then Unlabelled(b) else b.service == a.service
  }

  /** The same, except that a service of that very name is taken together with the unlabelled events. */
  predicate Together(a: Event, b: Event) {
    SameService(a, b) || (Unlabelled(a) && LabelledUnknown(b)) || (LabelledUnknown(a) && Unlabelled(b))
  }

  lemma {:induction false} TakenHaveTheKey(cfg: Config, ops: seq<Op>, k: string)
    ensures forall s :: s in AnomalousOf(cfg, ops, k) ==> KeyOf(cfg, s.event) == k
  {
    if ops != [] {
      TakenHaveTheKey(cfg, ops[..|ops| - 1], k);
    }
  }

  lemma {:induction false} ClosedAreMembers(log: seq<Closing>, c: Closing, s: Scored)
    requires c in log && s in c.members
    ensures s in Members(OfKey(log, c.key))
  {
    var last := |log| - 1;
    if log[last] == c {
      assert OfKey(log, c.key)[..|OfKey(log, c.key)| - 1] == OfKey(log[..last], c.key);
    } else {
      assert c in log[..last];
      ClosedAreMembers(log[..last], c, s);
      MembersConcat(OfKey(log[..last], c.key), if log[last].key == c.key then [log[last]] else []);
    }
  }

  /** Every event lies in a window of its own key. */
  lemma MembersHaveTheKey(cfg: Config, ops: seq<Op>)
    ensures forall c, s :: c in Run(cfg, ops).log && s in c.members ==> KeyOf(cfg, s.event) == c.key
    ensures forall k, s :: k in Run(cfg, ops).buckets && s in Run(cfg, ops).buckets[k].events ==>
      KeyOf(cfg, s.event) == k
  {
    var st := Run(cfg, ops);
    forall c, s | c in st.log && s in c.members ensures KeyOf(cfg, s.event) == c.key {
      ClosedAreMembers(st.log, c, s);
      NoEventLostOrRepeated(cfg, ops, c.key);
      TakenHaveTheKey(cfg, ops, c.key);
    }
    forall k, s | k in st.buckets && s in st.buckets[k].events ensures KeyOf(cfg, s.event) == k {
      assert s in Open(st, k);
      NoEventLostOrRepeated(cfg, ops, k);
      TakenHaveTheKey(cfg, ops, k);
    }
  }

  /** All events of the window belong together. */
  ghost predicate OneGroup(members: seq<Scored>) {
    forall s, t :: s in members && t in members ==> Together(s.event, t.event)
  }

  /** No two open buckets hold events that belong together. */
  ghost predicate Apart(buckets: map<string, Bucket>) {
    forall k, l, s, t :: k in buckets && l in buckets && k != l && s in buckets[k].events && t in buckets[l].events ==>
      !Together(s.event, t.event)
  }

  lemma KeyTellsTheGroup(cfg: Config, a: Event, b: Event)
    requires cfg.byService
    ensures KeyOf(cfg, a) == KeyOf(cfg, b) <==> Together(a, b)
  {
  }

  /** Grouped by service, over any calls: a window holds one group, and one group never fills two buckets at once. */
  lemma WindowsFollowServices(cfg: Config, ops: seq<Op>)
    requires cfg.byService
    ensures forall c :: c in Run(cfg, ops).log ==> OneGroup(c.members)
    ensures forall k :: k in Run(cfg, ops).buckets ==> OneGroup(Run(cfg, ops).buckets[k].events)
    ensures Apart(Run(cfg, ops).buckets)
  {
    MembersHaveTheKey(cfg, ops);
    forall a: Event, b: Event ensures KeyOf(cfg, a) == KeyOf(cfg, b) <==> Together(a, b) {
      KeyTellsTheGroup(cfg, a, b);
    }
  }

  // ---------------------------------------------------------------- the service that is called "unknown"

  /** One event has no service, and the other a service by the name that stands for none. */
  predicate Clash(a: Event, b: Event) {
    (Unlabelled(a) && LabelledUnknown(b)) || (LabelledUnknown(a) && Unlabelled(b))
  }

  ghost predicate NoClash(ops: seq<Op>) {
    forall i, j :: 0 <= i < |ops| && 0 <= j < |ops| && ops[i].Add? && ops[j].Add? ==>
      !Clash(ops[i].scored.event, ops[j].scored.event)
  }

  ghost predicate OneService(members: seq<Scored>) {
    forall s, t :: s in members && t in members ==> SameService(s.event, t.event)
  }

  lemma MembersComeFromOps(cfg: Config, ops: seq<Op>)
    ensures forall c, s :: c in Run(cfg, ops).log && s in c.members ==> Comes(ops, s)
    ensures forall k, s :: k in Run(cfg, ops).buckets && s in Run(cfg, ops).buckets[k].events ==> Comes(ops, s)
  {
    var st := Run(cfg, ops);
    forall c, s | c in st.log && s in c.members ensures Comes(ops, s) {
      ClosedAreMembers(st.log, c, s);
      NoEventLostOrRepeated(cfg, ops, c.key);
      AnomalousComeFromOps(cfg, ops, c.key);
    }
    forall k, s | k in st.buckets && s in st.buckets[k].events ensures Comes(ops, s) {
      assert s in Open(st, k);
      NoEventLostOrRepeated(cfg, ops, k);
      AnomalousComeFromOps(cfg, ops, k);
    }
  }

  /** While the name is not used for a service next to unlabelled events, a window is one service's, or nobody's. */
  lemma WindowsAreServices(cfg: Config, ops: seq<Op>)
    requires cfg.byService && NoClash(ops)
    ensures forall c :: c in Run(cfg, ops).log ==> OneService(c.members)
    ensures forall k :: k in Run(cfg, ops).buckets ==> OneService(Run(cfg, ops).buckets[k].events)
  {
    WindowsFollowServices(cfg, ops);
    MembersComeFromOps(cfg, ops);
    forall s, t | Comes(ops, s) && Comes(ops, t) ensures !Clash(s.event, t.event) {
    }
  }

  ghost predicate ShareBucket(st: State, s: Scored, t: Scored) {
    exists k :: k in st.buckets && s in st.buckets[k].events && t in st.buckets[k].events
  }

  lemma RunMore(cfg: Config, ops: seq<Op>, op: Op)
    ensures [op] == [] + [op]
    ensures Run(cfg, ops + [op]) == Perform(cfg, Run(cfg, ops), op)
  {
    assert (ops + [op])[..|ops|] == ops;
  }

  /**
   Two anomalous events within one window of each other share a bucket exactly if they have the same service or
   none, if and only if they do not clash.
   */
  lemma SharedByServiceIff(cfg: Config, s: Scored, t: Scored, reliable: set<Signature>)
    requires cfg.byService && s.anomalous && t.anomalous && t.event.ts - s.event.ts <= cfg.window
    ensures
      var st := Run(cfg, [Add(s, reliable), Add(t, reliable)]);
      (ShareBucket(st, s, t) <==> SameService(s.event, t.event)) <==> !Clash(s.event, t.event)
  {
    var ops := [Add(s, reliable), Add(t, reliable)];
    var first := PutEvent(NEW_STATE, KeyOf(cfg, s.event), s);
    RunMore(cfg, [], Add(s, reliable));
    RunMore(cfg, [Add(s, reliable)], Add(t, reliable));
    assert Run(cfg, ops) == PutEvent(first, KeyOf(cfg, t.event), t);
    KeyTellsTheGroup(cfg, s.event, t.event);
    MembersHaveTheKey(cfg, ops);
  }

  lemma BothGoIntoOne(cfg: Config, s: Scored, t: Scored, reliable: set<Signature>)
    requires cfg.byService && s.anomalous && t.anomalous && t.event.ts - s.event.ts <= cfg.window
    requires Together(s.event, t.event)
    ensures
      var k, st := KeyOf(cfg, s.event), Run(cfg, [Add(s, reliable), Add(t, reliable)]);
      st.order == [k] && st.log == [] && k in st.buckets && st.buckets[k].events == [s, t]
  {
    RunMore(cfg, [], Add(s, reliable));
    RunMore(cfg, [Add(s, reliable)], Add(t, reliable));
    assert [Add(s, reliable)] + [Add(t, reliable)] == [Add(s, reliable), Add(t, reliable)];
  }

  lemma FlushOfOne(cfg: Config, st: State, k: string, reliable: set<Signature>)
    requires Wellformed(st) && st.order == [k] && st.log == []
    requires |st.buckets[k].events| >= cfg.minEvents
    ensures
      var log := Perform(cfg, st, Flush(reliable)).log;
      |log| == 1 && log[0].members == st.buckets[k].events && log[0].reliable == reliable && !log[0].verdict.Forgotten?
  {
    assert FlushKeys(cfg, st, [k], reliable) == FlushKeys(cfg, CloseKey(cfg, st, k, reliable), [], reliable);
  }

  /** An unlabelled event and one of the service "unknown", within one window: a flush makes one situation of both. */
  lemma UnknownIsShared(cfg: Config, s: Scored, t: Scored)
    requires cfg.byService && s.anomalous && t.anomalous && t.event.ts - s.event.ts <= cfg.window
    requires Clash(s.event, t.event) && cfg.minEvents <= 2
    ensures
      var log := Run(cfg, [Add(s, {}), Add(t, {}), Flush({})]).log;
      && !SameService(s.event, t.event)
      && |log| == 1 && log[0].verdict.Emitted? && log[0].verdict.situation.members == [s, t]
  {
    var ops := [Add(s, {}), Add(t, {})];
    BothGoIntoOne(cfg, s, t, {});
    RunMore(cfg, ops, Flush({}));
    FlushOfOne(cfg, Run(cfg, ops), KeyOf(cfg, s.event), {});
    assert ops + [Flush({})] == [Add(s, {}), Add(t, {}), Flush({})];
    var log := Run(cfg, ops + [Flush({})]).log;
    PeaksAndVerdicts(cfg, ops + [Flush({})], log[0].key);
    assert log[..0] == [] && log[0] in OfKey(log, log[0].key);
  }

  /** Not grouped, all anomalous events share one bucket. */
  lemma NotGroupedIsOneBucket(cfg: Config, ops: seq<Op>)
    requires !cfg.byService
    ensures |Run(cfg, ops).buckets| <= 1
  {
    var st := Run(cfg, ops);
    MembersHaveTheKey(cfg, ops);
    forall k | k in st.buckets ensures k == "" {
      var s := st.buckets[k].events[0];
      assert s in st.buckets[k].events;
      assert KeyOf(cfg, s.event) == k;
    }
    assert st.buckets.Keys <= {""};
    SubsetCount(st.buckets.Keys, {""});
  }

  lemma SubsetCount(a: set<string>, b: set<string>)
    requires a <= b
    ensures |a| <= |b|
  {
    assert b == a + (b - a);
  }

  // ---------------------------------------------------------------- when a window closes

  /** There is enough in the window for a situation, or it has had its full time. */
  predicate Ripe(cfg: Config, events: seq<Scored>)
    requires events != []
  {
    |events| >= cfg.minEvents || events[|events| - 1].event.ts - events[0].event.ts >= cfg.window
  }

  lemma RipeIsClosed(cfg: Config, b: Bucket, reliable: set<Signature>)
    requires b.events != []
    ensures Ripe(cfg, b.events) <==> Judge(cfg, b, reliable).Some?
  {
  }

  /** A window is closed by an event exactly if that lies beyond the window of its first one, and it is ripe. */
  lemma ClosedByEventIff(cfg: Config, st: State, s: Scored, reliable: set<Signature>)
    requires Wellformed(st) && s.anomalous
    ensures
      var k := KeyOf(cfg, s.event);
      var open, st' := Open(st, k), AddEvent(cfg, st, s, reliable);
      if open != [] && s.event.ts - open[0].event.ts > cfg.window && Ripe(cfg, open)
      then Open(st', k) == [s] && |st'.log| == |st.log| + 1
      else Open(st', k) == open + [s] && st'.log == st.log
  {
    var k := KeyOf(cfg, s.event);
    if k in st.buckets {
      RipeIsClosed(cfg, st.buckets[k], reliable);
    }
  }

  /** A flush closes exactly the ripe windows. */
  lemma ClosedByFlushIff(cfg: Config, st: State, reliable: set<Signature>, k: string)
    requires Wellformed(st)
    ensures
      var open, st' := Open(st, k), Perform(cfg, st, Flush(reliable));
      Open(st', k) == if open != [] && Ripe(cfg, open) then [] else open
  {
    PerformSeenFrom(cfg, st, Flush(reliable), k);
  }
}
