/** The robust correlator's sliding windows, updated in place. */
module RobustCorrelators {
  import opened Prelude
  import opened Detection

  /** A window's key; `series` is empty when windows are kept per metric name. */
  datatype WindowKey = WindowKey(name: string, series: string, bucket: nat)

  datatype Sample = Sample(name: string, value: Option<real>, labels: map<string, string>, hour: nat)

  datatype Settings = Settings(warmup: nat, buckets: nat, windowSize: nat, perSeries: bool)

  datatype Row = Row(name: string, bucket: nat, window: seq<real>, series: Option<string>)

  type Windows = map<WindowKey, seq<real>>

  function SeriesOf(labels: map<string, string>): string {
    if Label(labels, "service") != "" then Label(labels, "service") else Label(labels, "job")
  }

  function KeyOf(cfg: Settings, s: Sample): WindowKey
    requires cfg.buckets > 0
  {
    WindowKey(s.name, if cfg.perSeries then SeriesOf(s.labels) else "", s.hour % cfg.buckets)
  }

  /** Appending to a bounded deque drops from the front. */
  function Push(window: seq<real>, v: real, size: nat): seq<real> {
    var longer := window + [v];
    if |longer| <= size then longer else longer[|longer| - size..]
  }

  function WindowAt(windows: Windows, key: WindowKey): seq<real> {
    if key in windows then windows[key] else []
  }

  /** Another warm window of the same series. */
  predicate WarmSibling(cfg: Settings, windows: Windows, key: WindowKey, other: WindowKey) {
    other in windows && other != key && other.name == key.name && other.series == key.series &&
    |windows[other]| >= cfg.warmup
  }

  /** The window a sample of `key` is scored against: its own if warm, else the fullest warm sibling. */
  ghost predicate IsReference(cfg: Settings, windows: Windows, key: WindowKey, ref: seq<real>) {
    var own := WindowAt(windows, key);
    if |own| >= cfg.warmup then ref == own
    else
      && (ref == own || exists other :: WarmSibling(cfg, windows, key, other) && windows[other] == ref)
      && (forall other :: WarmSibling(cfg, windows, key, other) ==> |windows[other]| <= |ref|)
      && |own| <= |ref|
  }

  /** The detector's score: zero while nothing is warm. */
  function ScoreIn(cfg: Settings, ref: seq<real>, v: real): real {
    if |ref| < cfg.warmup || ref == [] then 0.0 else Score(ref, v)
  }

  // ---------------------------------------------------------------- whose windows judge a sample

  /** The windows of a sample's metric, and of its service or job if windows are kept per series. */
  predicate OfSeries(cfg: Settings, s: Sample, key: WindowKey) {
    && key.name == s.name
    && if !cfg.perSeries then key.series == ""
       else if "service" in s.labels && s.labels["service"] != "" then key.series == s.labels["service"]
       else if "job" in s.labels then key.series == s.labels["job"]
       else key.series == ""
  }

  /** No window of the sample's series holds enough samples to judge by. */
  ghost predicate Cold(cfg: Settings, windows: Windows, s: Sample) {
    forall key :: OfSeries(cfg, s, key) ==> |WindowAt(windows, key)| < cfg.warmup
  }

  /** The score is that of the sample against one warm window of its series. */
  ghost predicate JudgedBy(cfg: Settings, windows: Windows, s: Sample, score: real, key: WindowKey)
    requires s.value.Some?
  {
    && OfSeries(cfg, s, key) && |WindowAt(windows, key)| >= cfg.warmup
    && WindowAt(windows, key) != [] && score == Score(WindowAt(windows, key), s.value.value)
  }

  /** A sample without a value, or of a cold series, scores nothing; any other is judged by a warm window. */
  ghost predicate Judged(cfg: Settings, windows: Windows, s: Sample, score: real) {
    && (s.value.None? || Cold(cfg, windows, s) ==> score == 0.0)
    && (s.value.Some? && !Cold(cfg, windows, s) && cfg.warmup > 0 ==>
          exists key :: JudgedBy(cfg, windows, s, score, key))
  }

  lemma ColdReference(cfg: Settings, windows: Windows, s: Sample, ref: seq<real>)
    requires cfg.buckets > 0 && Cold(cfg, windows, s) && IsReference(cfg, windows, KeyOf(cfg, s), ref)
    ensures |ref| < cfg.warmup
  {
    assert OfSeries(cfg, s, KeyOf(cfg, s));
    if other :| WarmSibling(cfg, windows, KeyOf(cfg, s), other) && windows[other] == ref {
      assert OfSeries(cfg, s, other);
    }
  }

  lemma WarmReference(cfg: Settings, windows: Windows, s: Sample, ref: seq<real>, warm: WindowKey)
    returns (key: WindowKey)
    requires cfg.buckets > 0 && cfg.warmup > 0 && IsReference(cfg, windows, KeyOf(cfg, s), ref)
    requires OfSeries(cfg, s, warm) && |WindowAt(windows, warm)| >= cfg.warmup
    ensures OfSeries(cfg, s, key) && WindowAt(windows, key) == ref && |ref| >= cfg.warmup
  {
    var own := KeyOf(cfg, s);
    assert warm == own || WarmSibling(cfg, windows, own, warm);
    if ref == WindowAt(windows, own) {
      key := own;
    } else {
      key :| WarmSibling(cfg, windows, own, key) && windows[key] == ref;
    }
  }

  lemma ReferenceJudges(cfg: Settings, windows: Windows, s: Sample, ref: seq<real>)
    requires cfg.buckets > 0 && s.value.Some? && IsReference(cfg, windows, KeyOf(cfg, s), ref)
    ensures Judged(cfg, windows, s, ScoreIn(cfg, ref, s.value.value))
  {
    if Cold(cfg, windows, s) {
      ColdReference(cfg, windows, s, ref);
    } else if cfg.warmup > 0 {
      var warm :| OfSeries(cfg, s, warm) && |WindowAt(windows, warm)| >= cfg.warmup;
      var key := WarmReference(cfg, windows, s, ref, warm);
      assert JudgedBy(cfg, windows, s, ScoreIn(cfg, ref, s.value.value), key);
    }
  }

  /** Two samples share a window exactly if they are of one series and their hours fall into one bucket. */
  lemma SameWindowIff(cfg: Settings, a: Sample, b: Sample)
    requires cfg.buckets > 0
    ensures OfSeries(cfg, a, KeyOf(cfg, a))
    ensures KeyOf(cfg, a) == KeyOf(cfg, b) <==>
      OfSeries(cfg, b, KeyOf(cfg, a)) && a.hour % cfg.buckets == b.hour % cfg.buckets
  {
  }

  /** All samples of one metric, pooled over its windows in dictionary order. */
  function Pooled(order: seq<WindowKey>, windows: Windows, name: string): seq<real> {
    if order == [] then []
    else
      var last := order[|order| - 1];
      Pooled(order[..|order| - 1], windows, name) + if last.name == name then WindowAt(windows, last) else []
  }

  class RobustCorrelator {
    const cfg: Settings
    var order: seq<WindowKey>
    var windows: Windows

    ghost predicate Valid()
      reads this
    {
      && cfg.buckets > 0
      && (forall k :: k in order <==> k in windows)
      && (forall i, j :: 0 <= i < j < |order| ==> order[i] != order[j])
      && (forall k :: k in windows ==> |windows[k]| <= cfg.windowSize)
    }

    constructor (cfg: Settings)
      requires cfg.buckets > 0
      ensures Valid() && this.cfg == cfg && windows == map[]
    {
      this.cfg := cfg;
      order, windows := [], map[];
    }

    method ScoringWindow(key: WindowKey) returns (best: seq<real>)
      requires Valid() && key in windows
      ensures IsReference(cfg, windows, key, best)
    {
      var own := windows[key];
      if |own| >= cfg.warmup {
        return own;
      }
      best := own;
      var i := 0;
      while i < |order|
        invariant 0 <= i <= |order| && |own| <= |best|
        invariant best == own || exists other :: WarmSibling(cfg, windows, key, other) && windows[other] == best
        invariant forall j :: 0 <= j < i && WarmSibling(cfg, windows, key, order[j]) ==> |windows[order[j]]| <= |best|
      {
        var other := order[i];
        assert other in windows;
        if other != key && |windows[other]| >= cfg.warmup && other.name == key.name && other.series == key.series {
          if |windows[other]| > |best| {
            best := windows[other];
          }
        }
        i := i + 1;
      }
    }

    /** Make sure the key has a window, empty at first. */
    method OpenWindow(key: WindowKey)
      requires Valid()
      modifies this
      ensures Valid() && windows == old(windows)[key := WindowAt(old(windows), key)]
    {
      if key !in windows {
        order := order + [key];
        windows := windows[key := []];
      }
      assert windows == old(windows)[key := WindowAt(old(windows), key)];
    }

    /** Score a sample against its reference window, then fold it into its own. */
    method Detect(s: Sample) returns (score: real, ghost ref: seq<real>)
      requires Valid()
      modifies this
      ensures Valid()
      ensures windows == Learned(cfg, old(windows), s)
      ensures Judged(cfg, old(windows), s, score)
      ensures s.value.Some? ==>
        IsReference(cfg, old(windows), KeyOf(cfg, s), ref) && score == ScoreIn(cfg, ref, s.value.value)
    {
      ref := [];
      if s.value.None? {
        return 0.0, ref;
      }
      var key := KeyOf(cfg, s);
      ghost var before := windows;
      OpenWindow(key);
      var window := ScoringWindow(key);
      ref := window;
      SameReference(cfg, before, windows, key, window);
      score := ScoreIn(cfg, window, s.value.value);
      assert Judged(cfg, before, s, score) by {
        ReferenceJudges(cfg, before, s, window);
      }
      windows := windows[key := Push(windows[key], s.value.value, cfg.windowSize)];
      assert windows == before[key := Push(WindowAt(before, key), s.value.value, cfg.windowSize)];
    }

    method BaselineSnapshot(name: string) returns (b: Option<Baseline>)
      requires Valid()
      ensures b == if Pooled(order, windows, name) == [] then None else Some(BaselineOf(Pooled(order, windows, name)))
    {
      var samples := [];
      var i := 0;
      while i < |order|
        invariant 0 <= i <= |order| && samples == Pooled(order[..i], windows, name)
      {
        assert order[..i + 1][..i] == order[..i];
        assert order[i] in windows;
        if order[i].name == name {
          samples := samples + windows[order[i]];
        }
        i := i + 1;
      }
      assert order[..i] == order;
      b := if samples == [] then None else Some(BaselineOf(samples));
    }

    method Snapshot() returns (rows: seq<Row>)
      requires Valid()
      ensures rows == Rows(cfg, order, windows)
    {
      rows := [];
      var i := 0;
      while i < |order|
        invariant 0 <= i <= |order| && |rows| == i
        invariant forall j :: 0 <= j < i ==> rows[j] == RowOf(cfg, order[j], WindowAt(windows, order[j]))
      {
        rows := rows + [RowOf(cfg, order[i], WindowAt(windows, order[i]))];
        i := i + 1;
      }
    }

    method Load(rows: seq<Row>)
      requires Valid()
      modifies this
      ensures Valid() && windows == Loaded(cfg, old(windows), rows)
    {
      var i := 0;
      while i < |rows|
        invariant 0 <= i <= |rows| && Valid()
        invariant windows == Loaded(cfg, old(windows), rows[..i])
      {
        assert rows[..i + 1][..i] == rows[..i];
        var key := RowKey(cfg, rows[i]);
        if key !in windows {
          order := order + [key];
        }
        windows := windows[key := LastOf(rows[i].window, cfg.windowSize)];
        i := i + 1;
      }
      assert rows[..i] == rows;
    }
  }

  lemma SameReference(cfg: Settings, windows: Windows, windows': Windows, key: WindowKey, ref: seq<real>)
    requires IsReference(cfg, windows', key, ref) && WindowAt(windows, key) == WindowAt(windows', key)
    requires forall k :: k != key ==> (k in windows' <==> k in windows) && WindowAt(windows', k) == WindowAt(windows, k)
    ensures IsReference(cfg, windows, key, ref)
  {
    forall other | WarmSibling(cfg, windows, key, other)
      ensures WarmSibling(cfg, windows', key, other) && windows'[other] == windows[other]
    {
      assert WindowAt(windows', other) == WindowAt(windows, other);
    }
    if |WindowAt(windows, key)| < cfg.warmup && ref != WindowAt(windows, key) {
      var other :| WarmSibling(cfg, windows', key, other) && windows'[other] == ref;
      assert WindowAt(windows', other) == WindowAt(windows, other);
      assert WarmSibling(cfg, windows, key, other) && windows[other] == ref;
    }
  }

  // ---------------------------------------------------------------- snapshot and load

  function RowOf(cfg: Settings, key: WindowKey, window: seq<real>): Row {
    Row(key.name, key.bucket, window, if cfg.perSeries then Some(key.series) else None)
  }

  function RowKey(cfg: Settings, r: Row): WindowKey {
    WindowKey(r.name, if cfg.perSeries && r.series.Some? then r.series.value else "", r.bucket)
  }

  function LastOf(xs: seq<real>, size: nat): seq<real> {
    if |xs| <= size then xs else xs[|xs| - size..]
  }

  function Loaded(cfg: Settings, windows: Windows, rows: seq<Row>): Windows {
    if rows == [] then windows
    else
      var last := rows[|rows| - 1];
      Loaded(cfg, windows, rows[..|rows| - 1])[RowKey(cfg, last) := LastOf(last.window, cfg.windowSize)]
  }

  function Rows(cfg: Settings, order: seq<WindowKey>, windows: Windows): seq<Row> {
    seq(|order|, i requires 0 <= i < |order| => RowOf(cfg, order[i], WindowAt(windows, order[i])))
  }

  /** A row read back is the window it was written from. */
  lemma RowRestores(cfg: Settings, rows: seq<Row>, row: Row, key: WindowKey, window: seq<real>)
    requires row == RowOf(cfg, key, window) && |window| <= cfg.windowSize && (cfg.perSeries || key.series == "")
    ensures Loaded(cfg, map[], rows + [row]) == Loaded(cfg, map[], rows)[key := window]
  {
    assert (rows + [row])[..|rows|] == rows;
  }

  /** Loading a snapshot into an empty correlator of the same settings restores every window. */
  lemma {:induction false} SnapshotRestores(cfg: Settings, order: seq<WindowKey>, windows: Windows)
    requires forall k :: k in order ==>
      k in windows && |windows[k]| <= cfg.windowSize && (cfg.perSeries || k.series == "")
    ensures forall k :: k in Loaded(cfg, map[], Rows(cfg, order, windows)) <==> k in order
    ensures forall k :: k in order ==> Loaded(cfg, map[], Rows(cfg, order, windows))[k] == windows[k]
  {
    if order != [] {
      var last := |order| - 1;
      var rows, row := Rows(cfg, order[..last], windows), RowOf(cfg, order[last], windows[order[last]]);
      SnapshotRestores(cfg, order[..last], windows);
      assert Rows(cfg, order, windows) == rows + [row];
      assert order == order[..last] + [order[last]];
      RowRestores(cfg, rows, row, order[last], windows[order[last]]);
    }
  }

  // ---------------------------------------------------------------- what the windows hold

  /** What detecting one sample makes of the windows. */
  function Learned(cfg: Settings, windows: Windows, s: Sample): Windows
    requires cfg.buckets > 0
  {
    if s.value.None? then windows
    else windows[KeyOf(cfg, s) := Push(WindowAt(windows, KeyOf(cfg, s)), s.value.value, cfg.windowSize)]
  }

  function AllLearned(cfg: Settings, windows: Windows, samples: seq<Sample>): Windows
    requires cfg.buckets > 0
  {
    if samples == [] then windows
    else Learned(cfg, AllLearned(cfg, windows, samples[..|samples| - 1]), samples[|samples| - 1])
  }

  /** The value of a sample, if it belongs to the key. */
  function ValueFor(cfg: Settings, s: Sample, key: WindowKey): seq<real>
    requires cfg.buckets > 0
  {
    if s.value.Some? && KeyOf(cfg, s) == key then [s.value.value] else []
  }

  /** The values among these samples that belong to a key, in order. */
  function ValuesOf(cfg: Settings, samples: seq<Sample>, key: WindowKey): seq<real>
    requires cfg.buckets > 0
  {
    if samples == [] then []
    else ValuesOf(cfg, samples[..|samples| - 1], key) + ValueFor(cfg, samples[|samples| - 1], key)
  }

  lemma PushKeepsLast(xs: seq<real>, v: real, size: nat)
    ensures Push(LastOf(xs, size), v, size) == LastOf(xs + [v], size)
  {
  }

  lemma LearnedKeepsLast(cfg: Settings, windows: Windows, s: Sample, key: WindowKey, xs: seq<real>)
    requires cfg.buckets > 0 && WindowAt(windows, key) == LastOf(xs, cfg.windowSize)
    ensures WindowAt(Learned(cfg, windows, s), key) == LastOf(xs + ValueFor(cfg, s, key), cfg.windowSize)
  {
    if s.value.Some? && KeyOf(cfg, s) == key {
      PushKeepsLast(xs, s.value.value, cfg.windowSize);
    } else {
      assert xs + [] == xs;
    }
  }

  /**
   After any samples, and whatever was loaded before, a window holds the most recent values of its key, those
   loaded counted in, and as many as fit.
   */
  lemma {:induction false} WindowIsMostRecent(cfg: Settings, windows: Windows, samples: seq<Sample>, key: WindowKey)
    requires cfg.buckets > 0 && |WindowAt(windows, key)| <= cfg.windowSize
    ensures WindowAt(AllLearned(cfg, windows, samples), key) ==
      LastOf(WindowAt(windows, key) + ValuesOf(cfg, samples, key), cfg.windowSize)
  {
    var own := WindowAt(windows, key);
    if samples == [] {
      assert own + [] == own;
    } else {
      var front, s := samples[..|samples| - 1], samples[|samples| - 1];
      WindowIsMostRecent(cfg, windows, front, key);
      LearnedKeepsLast(cfg, AllLearned(cfg, windows, front), s, key, own + ValuesOf(cfg, front, key));
      assert (own + ValuesOf(cfg, front, key)) + ValueFor(cfg, s, key) == own + ValuesOf(cfg, samples, key);
    }
  }

  /** How many values a window has been given by the end, those loaded counted in. */
  function Received(cfg: Settings, windows: Windows, samples: seq<Sample>, key: WindowKey): nat
    requires cfg.buckets > 0
  {
    |WindowAt(windows, key)| + |ValuesOf(cfg, samples, key)|
  }

  ghost predicate Fitting(cfg: Settings, windows: Windows) {
    forall key :: |WindowAt(windows, key)| <= cfg.windowSize
  }

  /** `recent` are the last of `all`, as many as fit. */
  ghost predicate MostRecent(recent: seq<real>, all: seq<real>, size: nat) {
    |recent| == Min(|all|, size) && recent == all[|all| - |recent|..]
  }

  /** Whatever was loaded before and after any samples, a window holds the most recent values of its key. */
  lemma WindowHoldsMostRecent(cfg: Settings, windows: Windows, samples: seq<Sample>, key: WindowKey)
    requires cfg.buckets > 0 && Fitting(cfg, windows)
    ensures MostRecent(WindowAt(AllLearned(cfg, windows, samples), key),
              WindowAt(windows, key) + ValuesOf(cfg, samples, key), cfg.windowSize)
  {
    WindowIsMostRecent(cfg, windows, samples, key);
  }

  /**
   After any samples, nothing of a series is flagged by its score before one of the series' windows has been given
   warm-up many values.
   */
  lemma ColdSeriesIsSilent(cfg: Settings, windows: Windows, samples: seq<Sample>, s: Sample, score: real, p: Policy,
    z: real)
    requires cfg.buckets > 0 && Fitting(cfg, windows)
    requires forall key :: OfSeries(cfg, s, key) ==> Received(cfg, windows, samples, key) < cfg.warmup
    requires Judged(cfg, AllLearned(cfg, windows, samples), s, score) && z >= 0.0
    ensures score == 0.0
    ensures ScoreOnly(p, s.name) ==> !IsAnomaly(p, s.name, s.value, score, z)
  {
    forall key | OfSeries(cfg, s, key) ensures |WindowAt(AllLearned(cfg, windows, samples), key)| < cfg.warmup {
      WindowHoldsMostRecent(cfg, windows, samples, key);
    }
  }

  /** From then on every sample is judged by most recent values of its series, as many as fit, and enough of them. */
  lemma WarmSeriesIsJudged(cfg: Settings, windows: Windows, samples: seq<Sample>, s: Sample, score: real,
    warm: WindowKey)
    requires cfg.buckets > 0 && Fitting(cfg, windows) && 0 < cfg.warmup <= cfg.windowSize
    requires OfSeries(cfg, s, warm) && Received(cfg, windows, samples, warm) >= cfg.warmup
    requires Judged(cfg, AllLearned(cfg, windows, samples), s, score) && s.value.Some?
    ensures exists key, recent ::
      && OfSeries(cfg, s, key)
      && MostRecent(recent, WindowAt(windows, key) + ValuesOf(cfg, samples, key), cfg.windowSize)
      && |recent| >= cfg.warmup && score == Score(recent, s.value.value)
  {
    var now := AllLearned(cfg, windows, samples);
    WindowHoldsMostRecent(cfg, windows, samples, warm);
    assert |WindowAt(now, warm)| >= cfg.warmup;
    var key :| JudgedBy(cfg, now, s, score, key);
    WindowHoldsMostRecent(cfg, windows, samples, key);
  }

  /** The attached baseline pools the samples of all the metric's windows, and no others. */
  lemma {:induction false} PooledIsAll(order: seq<WindowKey>, windows: Windows, name: string, v: real)
    ensures v in Pooled(order, windows, name) <==>
      exists key :: key in order && key.name == name && v in WindowAt(windows, key)
  {
    if order != [] {
      var front, last := order[..|order| - 1], order[|order| - 1];
      PooledIsAll(front, windows, name, v);
      assert order == front + [last];
    }
  }

  // ---------------------------------------------------------------- the detector as a whole

  /** A series with any warm window is never scored blindly, whichever hour the sample falls in. */
  lemma NoBlackout(cfg: Settings, windows: Windows, key: WindowKey, other: WindowKey, ref: seq<real>)
    requires IsReference(cfg, windows, key, ref)
    requires other in windows && other.name == key.name && other.series == key.series && |windows[other]| >= cfg.warmup
    ensures |ref| >= cfg.warmup
  {
    assert other == key || WarmSibling(cfg, windows, key, other);
  }

  /** With one warm window for a metric, the attached baseline is exactly that window's. */
  lemma {:induction false} SingleWindowBaseline(order: seq<WindowKey>, windows: Windows, key: WindowKey)
    requires forall i, j :: 0 <= i < j < |order| ==> order[i] != order[j]
    requires forall k :: k in order && k.name == key.name && WindowAt(windows, k) != [] ==> k == key
    ensures Pooled(order, windows, key.name) == if key in order then WindowAt(windows, key) else []
  {
    if order != [] {
      var front, last := order[..|order| - 1], order[|order| - 1];
      SingleWindowBaseline(front, windows, key);
      assert forall k :: k in order <==> k in front || k == last;
      assert last !in front;
    }
  }

  /**
   End to end: for a score-only metric whose only samples are one warm window, the check made after a
   fix against the attached baseline and the detector's verdict on the next sample are opposites.
   */
  lemma FixIsVerifiedAsDetected(cfg: Settings, order: seq<WindowKey>, windows: Windows, key: WindowKey,
    ref: seq<real>, p: Policy, z: real, v: real)
    requires forall i, j :: 0 <= i < j < |order| ==> order[i] != order[j]
    requires key in order && key in windows && |windows[key]| >= cfg.warmup && windows[key] != []
    requires forall k :: k in order && k.name == key.name && WindowAt(windows, k) != [] ==> k == key
    requires IsReference(cfg, windows, key, ref)
    requires ScoreOnly(p, key.name) && z < FLAT_STEP_SCORE
    ensures Pooled(order, windows, key.name) != []
    ensures Recovered(p, z, key.name, Some(BaselineOf(Pooled(order, windows, key.name))), Some(v)) <==>
      !IsAnomaly(p, key.name, Some(v), ScoreIn(cfg, ref, v), z)
  {
    SingleWindowBaseline(order, windows, key);
    ScoreOnlyVerdictsAgree(p, z, key.name, windows[key], v);
  }
}
