/** The engine as the object the service keeps; its methods compute the calls of module Correlation. */
module CorrelationEngines {
  import opened Prelude
  import opened Correlation

  /** The two dictionaries read as one. */
  ghost function Zip(buffers: map<string, seq<Scored>>, maxScores: map<string, real>): map<string, Bucket>
    requires maxScores.Keys == buffers.Keys
  {
    map k | k in buffers :: Bucket(buffers[k], maxScores[k])
  }

  lemma ZipUpdated(buffers: map<string, seq<Scored>>, maxScores: map<string, real>, key: string, buf: seq<Scored>,
    peak: real)
    requires maxScores.Keys == buffers.Keys
    ensures maxScores[key := peak].Keys == buffers[key := buf].Keys
    ensures key in buffers ==> Zip(buffers, maxScores)[key] == Bucket(buffers[key], maxScores[key])
    ensures Zip(buffers[key := buf], maxScores[key := peak]) == Zip(buffers, maxScores)[key := Bucket(buf, peak)]
  {
  }

  class CorrelationEngine {
    const cfg: Config
    var order: seq<string>
    var buffers: map<string, seq<Scored>>
    var maxScores: map<string, real>
    var suppressed: seq<Situation>
    ghost var popped: seq<Situation>
    ghost var log: seq<Closing>

    /** The value the fields stand for. */
    ghost function View(): State
      reads this
      requires maxScores.Keys == buffers.Keys
    {
      State(order, Zip(buffers, maxScores), suppressed, popped, log)
    }

    ghost predicate Valid()
      reads this
    {
      maxScores.Keys == buffers.Keys && Wellformed(View())
    }

    constructor (cfg: Config)
      ensures Valid() && View() == NEW_STATE && this.cfg == cfg
    {
      this.cfg := cfg;
      order, buffers, maxScores, suppressed, popped, log := [], map[], map[], [], [], [];
    }

    /** Collapse one bucket, if it may close; the situation is returned if it goes on to diagnosis. */
    method CorrelateBuffer(key: string, reliable: set<Signature>) returns (emitted: Option<Situation>)
      requires Valid()
      modifies this
      ensures Valid() && View() == CloseKey(cfg, old(View()), key, reliable)
      ensures emitted == EmittedBy(log[|old(log)|..]) && old(log) <= log
    {
      ghost var was := View();
      CloseKeepsWellformed(cfg, was, key, reliable);
      if key !in buffers {
        return None;
      }
      var buf := buffers[key];
      if |buf| < MinEvents(cfg) {
        if buf[|buf| - 1].event.ts - buf[0].event.ts < cfg.window {
          return None;
        }
        Drop(key, Discarded, reliable);
        return None;
      }
      var s := Correlate(Bucket(buf, maxScores[key]));
      if s.signature !in reliable {
        Drop(key, Emitted(s), reliable);
        return Some(s);
      }
      if cfg.quiet {
        s := s.(handling := "quiet");
        Drop(key, Quieted(s), reliable);
        suppressed := suppressed + [s];
        return Some(s);
      }
      Drop(key, Suppressed(s), reliable);
      suppressed := suppressed + [s];
      return None;
    }

    /** Take a bucket out of the dictionaries and record why. */
    method Drop(key: string, ghost verdict: Verdict, ghost reliable: set<Signature>)
      requires maxScores.Keys == buffers.Keys && key in buffers
      modifies this`order, this`buffers, this`maxScores, this`log
      ensures maxScores.Keys == buffers.Keys
      ensures View() == old(View()).(
        order := Remove(old(order), key),
        buckets := old(View()).buckets - {key},
        log := old(log) + [Closing(key, old(buffers)[key], verdict, reliable)])
    {
      log := log + [Closing(key, buffers[key], verdict, reliable)];
      order := Remove(order, key);
      buffers := buffers - {key};
      maxScores := maxScores - {key};
    }

    /** Append an event to its bucket, opening the bucket if need be. */
    method Put(key: string, s: Scored)
      requires Valid()
      modifies this`order, this`buffers, this`maxScores
      ensures Valid() && View() == PutEvent(old(View()), key, s)
    {
      ghost var was := View();
      PutKeepsWellformed(was, key, s);
      if key !in buffers {
        order := order + [key];
      }
      var buf := if key in buffers then buffers[key] else [];
      var peak := if key in maxScores then maxScores[key] else 0.0;
      assert buf == [] ==> buf + [s] == [s];
      ZipUpdated(buffers, maxScores, key, buf + [s], MaxReal(peak, s.score));
      buffers := buffers[key := buf + [s]];
      maxScores := maxScores[key := MaxReal(peak, s.score)];
    }

    method Add(s: Scored, reliable: set<Signature>) returns (emitted: Option<Situation>)
      requires Valid()
      modifies this
      ensures Valid() && View() == Perform(cfg, old(View()), Op.Add(s, reliable))
      ensures emitted == EmittedBy(log[|old(log)|..]) && old(log) <= log
    {
      if !s.anomalous {
        return None;
      }
      var key := KeyOf(cfg, s.event);
      emitted := None;
      assert key in buffers ==> View().buckets[key] == Bucket(buffers[key], maxScores[key]);
      if key in buffers && s.event.ts - buffers[key][0].event.ts > cfg.window {
        emitted := CorrelateBuffer(key, reliable);
      }
      Put(key, s);
    }

    method FlushAll(reliable: set<Signature>) returns (out: seq<Situation>)
      requires Valid()
      modifies this
      ensures Valid() && View() == Perform(cfg, old(View()), Flush(reliable))
      ensures old(log) <= log && out == AllEmitted(log[|old(log)|..])
    {
      var keys := order;
      out := [];
      var i := 0;
      ghost var was, done := View(), [];
      while i < |keys|
        invariant 0 <= i <= |keys| && Valid()
        invariant FlushKeys(cfg, View(), keys[i..], reliable) == FlushKeys(cfg, was, keys, reliable)
        invariant log == was.log + done && out == AllEmitted(done)
      {
        ghost var before := log;
        var sit := CorrelateBuffer(keys[i], reliable);
        assert keys[i..][0] == keys[i] && keys[i..][1..] == keys[i + 1..];
        ghost var closed := log[|before|..];
        OneMoreClosed(was.log, done, closed, log, sit);
        done := done + closed;
        if sit.Some? {
          out := out + [sit.value];
        }
        i := i + 1;
      }
      assert keys[i..] == [];
      assert log[|was.log|..] == done;
    }

    method PopSuppressed() returns (s: Option<Situation>)
      requires Valid()
      modifies this
      ensures Valid() && View() == Perform(cfg, old(View()), Pop)
      ensures s == if old(suppressed) == [] then None else Some(old(suppressed)[0])
    {
      if suppressed == [] {
        return None;
      }
      s := Some(suppressed[0]);
      popped := popped + [suppressed[0]];
      suppressed := suppressed[1..];
    }

    method Reset()
      requires Valid()
      modifies this
      ensures Valid() && View() == Perform(cfg, old(View()), Op.Reset)
    {
      log := log + ForgetKeys(View(), order);
      order, buffers, maxScores, suppressed := [], map[], map[], [];
    }
  }

  /** The situation a call hands on: that of the window it closed as emitted or quiet, if any. */
  function EmittedBy(closed: seq<Closing>): Option<Situation> {
    if |closed| == 1 && (closed[0].verdict.Emitted? || closed[0].verdict.Quieted?) then
      Some(closed[0].verdict.situation)
    else None
  }

  function AllEmitted(closed: seq<Closing>): seq<Situation> {
    if closed == [] then []
    else
      var last := closed[|closed| - 1].verdict;
      AllEmitted(closed[..|closed| - 1]) + if last.Emitted? || last.Quieted? then [last.situation] else []
  }

  lemma AllEmittedConcat(a: seq<Closing>, b: seq<Closing>)
    ensures AllEmitted(a + b) == AllEmitted(a) + AllEmitted(b)
  {
    if b == [] {
      assert a + b == a;
    } else {
      assert (a + b)[..|a + b| - 1] == a + b[..|b| - 1];
    }
  }

  lemma Regroup<T>(first: seq<T>, done: seq<T>, log: seq<T>)
    requires first + done <= log
    ensures log == first + (done + log[|first + done|..])
  {
    var rest := log[|first + done|..];
    assert log == (first + done) + rest;
    assert (first + done) + rest == first + (done + rest);
  }

  lemma OneMoreClosed(first: seq<Closing>, done: seq<Closing>, closed: seq<Closing>, log: seq<Closing>,
    sit: Option<Situation>)
    requires first + done <= log && closed == log[|first + done|..] && |closed| <= 1 && sit == EmittedBy(closed)
    ensures log == first + (done + closed)
    ensures AllEmitted(done + closed) == AllEmitted(done) + if sit.Some? then [sit.value] else []
  {
    Regroup(first, done, log);
    AllEmittedConcat(done, closed);
    AllEmittedOne(closed);
  }

  lemma AllEmittedOne(closed: seq<Closing>)
    requires |closed| <= 1
    ensures AllEmitted(closed) == if EmittedBy(closed).Some? then [EmittedBy(closed).value] else []
  {
    if |closed| == 1 {
      assert closed[..0] == [];
    }
  }
}
