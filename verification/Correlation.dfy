/**
 The windowed correlation engine: anomalous events pile up in one bucket per key; a bucket closes when
 an event lies too far from its first one, or on a flush, and then becomes a situation, is suppressed,
 or is discarded as too thin.

 Scores and anomaly verdicts come from the correlator and are inputs here; so is the set of signatures
 with a proven track record at the time of each call. A signature is the set of fingerprints involved
 (the hash of it in the program). Times are seconds.
*/
module Correlation {
  import opened Prelude

  datatype Event = Event(name: string, fingerprint: string, service: Option<string>, ts: real)

  /** An event with the detector's verdict. The score rides along so that the peak can be stated. */
  datatype Scored = Scored(event: Event, score: real, anomalous: bool)

  type Signature = set<string>

  datatype Situation = Situation(
    signature: Signature, members: seq<Scored>, firstSeen: real, lastSeen: real,
    severity: string, peakScore: real, handling: string)

  datatype Config = Config(window: real, byService: bool, minEvents: int, quiet: bool)

  datatype Bucket = Bucket(events: seq<Scored>, peak: real)

  /** What became of a window that was closed; a reset forgets the windows that are open. */
  datatype Verdict =
    | Emitted(situation: Situation)
    | Quieted(situation: Situation)
    | Suppressed(situation: Situation)
    | Discarded
    | Forgotten

  /** A closed window, with the signatures that had a proven track record when it closed. */
  datatype Closing = Closing(key: string, members: seq<Scored>, verdict: Verdict, reliable: set<Signature>)

  /** `order` is the insertion order of the bucket dictionary; `log` records every closed window. */
  datatype State = State(
    order: seq<string>, buckets: map<string, Bucket>, queue: seq<Situation>,
    popped: seq<Situation>, log: seq<Closing>)

  datatype Op =
    | Add(scored: Scored, reliable: set<Signature>)
    | Flush(reliable: set<Signature>)
    | Pop
    | Reset

  const NEW_STATE: State := State([], map[], [], [], [])

  function KeyOf(cfg: Config, e: Event): string {
    if !cfg.byService then ""
    else if e.service.Some? && e.service.value != "" then e.service.value
    else "unknown"
  }

  function MinEvents(cfg: Config): int {
    Max(1, cfg.minEvents)
  }

  function SignatureOf(members: seq<Scored>): Signature {
    set s | s in members :: s.event.fingerprint
  }

  function Earliest(members: seq<Scored>): real
    requires members != []
  {
    if |members| == 1 then members[0].event.ts else MinReal(members[0].event.ts, Earliest(members[1..]))
  }

  function Latest(members: seq<Scored>): real
    requires members != []
  {
    if |members| == 1 then members[0].event.ts else MaxReal(members[0].event.ts, Latest(members[1..]))
  }

  function SeverityBand(score: real): string {
    if score >= 8.0 then "high" else if score >= 5.0 then "medium" else "low"
  }

  function Correlate(b: Bucket): Situation
    requires b.events != []
  {
    Situation(SignatureOf(b.events), b.events, Earliest(b.events), Latest(b.events), SeverityBand(b.peak), b.peak,
      "normal")
  }

  function Span(events: seq<Scored>, e: Event): real
    requires events != []
  {
    e.ts - events[0].event.ts
  }

  /** The verdict on a bucket that is asked to close; None when it is left to keep filling. */
  function Judge(cfg: Config, b: Bucket, reliable: set<Signature>): Option<Verdict>
    requires b.events != []
  {
    if |b.events| < MinEvents(cfg) then
      if Span(b.events, b.events[|b.events| - 1].event) < cfg.window then None else Some(Discarded)
    else
      var s := Correlate(b);
      if s.signature !in reliable then Some(Emitted(s))
      else if cfg.quiet then Some(Quieted(s.(handling := "quiet")))
      else Some(Suppressed(s))
  }

  function Queued(v: Verdict): seq<Situation> {
    if v.Quieted? || v.Suppressed? then [v.situation] else []
  }

  ghost predicate Wellformed(st: State) {
    && (forall k :: k in st.order <==> k in st.buckets)
    && Distinct(st.order)
    && NoEmptyBucket(st.buckets)
  }

  predicate NoEmptyBucket(buckets: map<string, Bucket>) {
    forall k :: k in buckets ==> buckets[k].events != []
  }

  predicate Distinct(keys: seq<string>) {
    keys == [] || (keys[0] !in keys[1..] && Distinct(keys[1..]))
  }

  function Remove(order: seq<string>, k: string): seq<string> {
    if order == [] then []
    else if order[0] == k then order[1..]
    else [order[0]] + Remove(order[1..], k)
  }

  function CloseKey(cfg: Config, st: State, k: string, reliable: set<Signature>): State
    requires k in st.buckets ==> st.buckets[k].events != []
  {
    if k !in st.buckets then st
    else
      match Judge(cfg, st.buckets[k], reliable)
      case None => st
      case Some(v) =>
        State(Remove(st.order, k), st.buckets - {k}, st.queue + Queued(v), st.popped,
              st.log + [Closing(k, st.buckets[k].events, v, reliable)])
  }

  function PutEvent(st: State, k: string, s: Scored): State {
    if k in st.buckets then
      var b := st.buckets[k];
      st.(buckets := st.buckets[k := Bucket(b.events + [s], MaxReal(b.peak, s.score))])
    else
      st.(order := st.order + [k], buckets := st.buckets[k := Bucket([s], MaxReal(0.0, s.score))])
  }

  function AddEvent(cfg: Config, st: State, s: Scored, reliable: set<Signature>): State
    requires Wellformed(st)
  {
    if !s.anomalous then st
    else
      var k := KeyOf(cfg, s.event);
      var closed :=
        if k in st.buckets && Span(st.buckets[k].events, s.event) > cfg.window
        then CloseKey(cfg, st, k, reliable) else st;
      PutEvent(closed, k, s)
  }

  function FlushKeys(cfg: Config, st: State, keys: seq<string>, reliable: set<Signature>): State
    requires NoEmptyBucket(st.buckets)
    decreases |keys|
  {
    if keys == [] then st
    else FlushKeys(cfg, CloseKey(cfg, st, keys[0], reliable), keys[1..], reliable)
  }

  function ForgetKeys(st: State, keys: seq<string>): seq<Closing>
    requires forall k :: k in keys ==> k in st.buckets
  {
    if keys == [] then [] else [Closing(keys[0], st.buckets[keys[0]].events, Forgotten, {})] + ForgetKeys(st, keys[1..])
  }

  function Perform(cfg: Config, st: State, op: Op): State
    requires Wellformed(st)
  {
    match op
    case Add(s, reliable) => AddEvent(cfg, st, s, reliable)
    case Flush(reliable) => FlushKeys(cfg, st, st.order, reliable)
    case Pop => if st.queue == [] then st else st.(queue := st.queue[1..], popped := st.popped + [st.queue[0]])
    case Reset => State([], map[], [], st.popped, st.log + ForgetKeys(st, st.order))
  }

  // ---------------------------------------------------------------- well-formedness

  lemma {:induction false} RemoveMembers(order: seq<string>, k: string)
    requires Distinct(order)
    ensures forall x :: x in Remove(order, k) <==> x in order && x != k
    ensures Distinct(Remove(order, k))
  {
    if order != [] {
      assert order == [order[0]] + order[1..];
      if order[0] != k {
        RemoveMembers(order[1..], k);
        assert Remove(order, k)[1..] == Remove(order[1..], k);
      }
    }
  }

  lemma {:induction false} DistinctAppend(order: seq<string>, k: string)
    requires Distinct(order) && k !in order
    ensures Distinct(order + [k])
  {
    if order != [] {
      assert order == [order[0]] + order[1..];
      DistinctAppend(order[1..], k);
      assert (order + [k])[1..] == order[1..] + [k];
    }
  }

  lemma PutKeepsWellformed(st: State, k: string, s: Scored)
    requires Wellformed(st)
    ensures Wellformed(PutEvent(st, k, s))
  {
    if k !in st.buckets {
      DistinctAppend(st.order, k);
    }
  }

  lemma CloseKeepsWellformed(cfg: Config, st: State, k: string, reliable: set<Signature>)
    requires Wellformed(st)
    ensures Wellformed(CloseKey(cfg, st, k, reliable))
  {
    RemoveMembers(st.order, k);
  }

  lemma {:induction false} FlushKeepsWellformed(cfg: Config, st: State, keys: seq<string>, reliable: set<Signature>)
    requires Wellformed(st)
    ensures Wellformed(FlushKeys(cfg, st, keys, reliable))
    decreases |keys|
  {
    if keys != [] {
      CloseKeepsWellformed(cfg, st, keys[0], reliable);
      FlushKeepsWellformed(cfg, CloseKey(cfg, st, keys[0], reliable), keys[1..], reliable);
    }
  }

  lemma PerformKeepsWellformed(cfg: Config, st: State, op: Op)
    requires Wellformed(st)
    ensures Wellformed(Perform(cfg, st, op))
  {
    match op
    case Add(s, reliable) =>
      var k := KeyOf(cfg, s.event);
      CloseKeepsWellformed(cfg, st, k, reliable);
      PutKeepsWellformed(st, k, s);
      PutKeepsWellformed(CloseKey(cfg, st, k, reliable), k, s);
    case Flush(reliable) => FlushKeepsWellformed(cfg, st, st.order, reliable);
    case Pop =>
    case Reset =>
  }

  function Run(cfg: Config, ops: seq<Op>): (st: State)
    ensures Wellformed(st)
  {
    if ops == [] then NEW_STATE
    else
      var last := |ops| - 1;
      PerformKeepsWellformed(cfg, Run(cfg, ops[..last]), ops[last]);
      Perform(cfg, Run(cfg, ops[..last]), ops[last])
  }
}
