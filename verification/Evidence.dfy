/**
 What counts as evidence that a fix works: the track record action re-checks, the reliability map
 correlation suppresses by, and the graduation of playbooks over a run of outcomes.
*/
module Evidence {
  import opened Prelude

  datatype Result = Success | Failure | RolledBack | Escalated

  /** A labelled outcome; `mode` is absent on records written before it existed. */
  datatype Record = Record(signature: string, playbook: string, result: Result, worked: bool, mode: Option<string>)

  predicate IsReal(r: Record) {
    r.mode.Some? && r.mode.value != "dry_run" && r.mode.value != "none"
  }

  function RealRecords(records: seq<Record>): seq<Record> {
    if records == [] then []
    else
      var last := |records| - 1;
      if IsReal(records[last]) then RealRecords(records[..last]) + [records[last]] else RealRecords(records[..last])
  }

  // ---------------------------------------------------------------- the track record

  /** A real run on this signature, of this playbook if one is named. */
  predicate Concerns(r: Record, signature: string, playbook: Option<string>) {
    IsReal(r) && r.signature == signature && (playbook.None? || r.playbook == playbook.value)
  }

  function Total(records: seq<Record>, signature: string, playbook: Option<string>): nat {
    if records == [] then 0
    else
      var last := |records| - 1;
      Total(records[..last], signature, playbook) + if Concerns(records[last], signature, playbook) then 1 else 0
  }

  function Worked(records: seq<Record>, signature: string, playbook: Option<string>): nat {
    if records == [] then 0
    else
      var last := |records| - 1;
      Worked(records[..last], signature, playbook) +
      if Concerns(records[last], signature, playbook) && records[last].worked then 1 else 0
  }

  function Ratio(worked: nat, total: nat): real {
    if total == 0 then 0.0 else worked as real / total as real
  }

  method TrackRecord(records: seq<Record>, signature: string, playbook: Option<string>)
    returns (worked: nat, total: nat)
    ensures worked == Worked(records, signature, playbook) && total == Total(records, signature, playbook)
  {
    worked, total := 0, 0;
    for i := 0 to |records|
      invariant worked == Worked(records[..i], signature, playbook)
      invariant total == Total(records[..i], signature, playbook)
    {
      assert records[..i + 1][..i] == records[..i];
      if Concerns(records[i], signature, playbook) {
        total := total + 1;
        if records[i].worked {
          worked := worked + 1;
        }
      }
    }
    assert records[..|records|] == records;
  }

  /** May this playbook run on this signature without a human approval? */
  predicate QuietEligible(records: seq<Record>, signature: string, playbook: string, threshold: real, minSamples: int) {
    var total := Total(records, signature, Some(playbook));
    total >= Max(1, minSamples) && Ratio(Worked(records, signature, Some(playbook)), total) >= threshold
  }

  // ---------------------------------------------------------------- the same, without counting step by step

  /** A run on a real cluster: not rehearsed, not withheld, and on record as such. */
  predicate IsRun(r: Record, signature: string, playbook: Option<string>) {
    && r.mode.Some? && r.mode.value !in {"dry_run", "none"} && r.signature == signature
    && (playbook.Some? ==> r.playbook == playbook.value)
  }

  predicate IsGoodRun(r: Record, signature: string, playbook: Option<string>) {
    IsRun(r, signature, playbook) && r.worked
  }

  ghost function Runs(records: seq<Record>, signature: string, playbook: Option<string>): set<int> {
    set i | 0 <= i < |records| && IsRun(records[i], signature, playbook)
  }

  ghost function GoodRuns(records: seq<Record>, signature: string, playbook: Option<string>): set<int> {
    set i | 0 <= i < |records| && IsGoodRun(records[i], signature, playbook)
  }

  lemma RunsAppend(records: seq<Record>, r: Record, signature: string, playbook: Option<string>)
    ensures |Runs(records + [r], signature, playbook)| ==
      |Runs(records, signature, playbook)| + if IsRun(r, signature, playbook) then 1 else 0
  {
    var runs, longer := Runs(records, signature, playbook), records + [r];
    forall i | 0 <= i < |records| ensures longer[i] == records[i] {
    }
    assert Runs(longer, signature, playbook) == if IsRun(r, signature, playbook) then runs + {|records|} else runs;
  }

  lemma GoodRunsAppend(records: seq<Record>, r: Record, signature: string, playbook: Option<string>)
    ensures |GoodRuns(records + [r], signature, playbook)| ==
      |GoodRuns(records, signature, playbook)| + if IsGoodRun(r, signature, playbook) then 1 else 0
  {
    var good, longer := GoodRuns(records, signature, playbook), records + [r];
    forall i | 0 <= i < |records| ensures longer[i] == records[i] {
    }
    assert GoodRuns(longer, signature, playbook) ==
      if IsGoodRun(r, signature, playbook) then good + {|records|} else good;
  }

  /** The track record counts exactly the runs on a real cluster, and those of them that worked. */
  lemma {:induction false} TrackRecordCountsRuns(records: seq<Record>, signature: string, playbook: Option<string>)
    ensures Total(records, signature, playbook) == |Runs(records, signature, playbook)|
    ensures Worked(records, signature, playbook) == |GoodRuns(records, signature, playbook)|
  {
    if records != [] {
      var last := |records| - 1;
      TrackRecordCountsRuns(records[..last], signature, playbook);
      RunsAppend(records[..last], records[last], signature, playbook);
      GoodRunsAppend(records[..last], records[last], signature, playbook);
      assert records == records[..last] + [records[last]];
    }
  }

  /** At least one run, at least as many as asked for, and a share of them worked that meets the threshold. */
  ghost predicate Proven(records: seq<Record>, signature: string, playbook: string, threshold: real, minSamples: int) {
    var n := |Runs(records, signature, Some(playbook))|;
    n >= 1 && n >= minSamples && |GoodRuns(records, signature, Some(playbook))| as real >= threshold * n as real
  }

  lemma QuietEligibleIffProven(records: seq<Record>, signature: string, playbook: string, threshold: real,
    minSamples: int)
    ensures QuietEligible(records, signature, playbook, threshold, minSamples) <==>
      Proven(records, signature, playbook, threshold, minSamples)
  {
    TrackRecordCountsRuns(records, signature, Some(playbook));
    var total := Total(records, signature, Some(playbook));
    if total > 0 {
      RatioMeets(Worked(records, signature, Some(playbook)), total, threshold);
    }
  }

  lemma RatioMeets(worked: nat, total: nat, threshold: real)
    requires total > 0
    ensures Ratio(worked, total) >= threshold <==> worked as real >= threshold * total as real
  {
  }

  // ---------------------------------------------------------------- the reliability map

  function SamplesOf(rows: seq<Record>, signature: string): nat {
    if rows == [] then 0
    else SamplesOf(rows[..|rows| - 1], signature) + if rows[|rows| - 1].signature == signature then 1 else 0
  }

  function SuccessesOf(rows: seq<Record>, signature: string): nat {
    if rows == [] then 0
    else
      var last := rows[|rows| - 1];
      SuccessesOf(rows[..|rows| - 1], signature) + if last.signature == signature && last.worked then 1 else 0
  }

  predicate SuppressVerdict(rows: seq<Record>, signature: string, threshold: real, minSamples: int) {
    SamplesOf(rows, signature) >= minSamples &&
    Ratio(SuccessesOf(rows, signature), SamplesOf(rows, signature)) >= threshold
  }

  /** The part of a correlator that suppression reads. */
  class ReliabilityMap {
    var reliability: map<string, real>
    var samples: map<string, nat>

    constructor ()
      ensures Reflects([])
    {
      reliability, samples := map[], map[];
    }

    /** The maps hold exactly what these rows say. */
    ghost predicate Reflects(rows: seq<Record>)
      reads this
    {
      forall signature ::
        && (if signature in samples then samples[signature] else 0) == SamplesOf(rows, signature)
        && (if signature in reliability then reliability[signature] else 0.0) ==
           Ratio(SuccessesOf(rows, signature), SamplesOf(rows, signature))
    }

    /** Forget what was learned and recompute it from these rows. */
    method Retrain(rows: seq<Record>)
      modifies this
      ensures Reflects(rows)
    {
      var worked, total: map<string, nat> := map[], map[];
      for i := 0 to |rows|
        invariant forall s :: (if s in total then total[s] else 0) == SamplesOf(rows[..i], s)
        invariant forall s :: (if s in worked then worked[s] else 0) == SuccessesOf(rows[..i], s)
      {
        assert rows[..i + 1][..i] == rows[..i];
        var s := rows[i].signature;
        total := total[s := (if s in total then total[s] else 0) + 1];
        if rows[i].worked {
          worked := worked[s := (if s in worked then worked[s] else 0) + 1];
        }
      }
      assert rows[..|rows|] == rows;
      reliability := map s | s in total :: Ratio(if s in worked then worked[s] else 0, total[s]);
      samples := total;
      forall s ensures SamplesOf(rows, s) == 0 ==> SuccessesOf(rows, s) == 0 {
        SuccessesAtMostSamples(rows, s);
      }
    }

    predicate ShouldSuppress(signature: string, threshold: real, minSamples: int)
      reads this
    {
      (if signature in samples then samples[signature] else 0) >= minSamples &&
      (if signature in reliability then reliability[signature] else 0.0) >= threshold
    }
  }

  lemma SuccessesAtMostSamples(rows: seq<Record>, signature: string)
    ensures SuccessesOf(rows, signature) <= SamplesOf(rows, signature)
  {
  }

  lemma RowsAppend(rows: seq<Record>, r: Record, signature: string)
    ensures SamplesOf(rows + [r], signature) == SamplesOf(rows, signature) + if r.signature == signature then 1 else 0
    ensures SuccessesOf(rows + [r], signature) ==
      SuccessesOf(rows, signature) + if r.signature == signature && r.worked then 1 else 0
  {
    assert (rows + [r])[..|rows|] == rows;
  }

  lemma {:induction false} CountsAgree(log: seq<Record>, signature: string)
    ensures SamplesOf(RealRecords(log), signature) == Total(log, signature, None)
    ensures SuccessesOf(RealRecords(log), signature) == Worked(log, signature, None)
  {
    if log != [] {
      var front, r := log[..|log| - 1], log[|log| - 1];
      var rows := RealRecords(front);
      CountsAgree(front, signature);
      RowsAppend(rows, r, signature);
      assert RealRecords(log) == if IsReal(r) then rows + [r] else rows;
    }
  }

  /** Retrained on the real records, suppression judges every signature as the track record of the whole log does. */
  lemma SuppressionAgreesWithTrackRecord(trained: ReliabilityMap, log: seq<Record>, signature: string,
    threshold: real, minSamples: int)
    requires trained.Reflects(RealRecords(log))
    ensures trained.ShouldSuppress(signature, threshold, minSamples) <==>
      (Total(log, signature, None) >= minSamples &&
       Ratio(Worked(log, signature, None), Total(log, signature, None)) >= threshold)
  {
    CountsAgree(log, signature);
  }

  // ---------------------------------------------------------------- from a signature to a playbook

  function WithoutPlaybook(log: seq<Record>, playbook: string): seq<Record> {
    if log == [] then []
    else
      var last := |log| - 1;
      if log[last].playbook == playbook then WithoutPlaybook(log[..last], playbook)
      else WithoutPlaybook(log[..last], playbook) + [log[last]]
  }

  lemma CountsAppend(log: seq<Record>, r: Record, signature: string, playbook: Option<string>)
    ensures Total(log + [r], signature, playbook) ==
      Total(log, signature, playbook) + if Concerns(r, signature, playbook) then 1 else 0
    ensures Worked(log + [r], signature, playbook) ==
      Worked(log, signature, playbook) + if Concerns(r, signature, playbook) && r.worked then 1 else 0
  {
    assert (log + [r])[..|log|] == log;
  }

  lemma {:induction false} RestIsShorter(log: seq<Record>, playbook: string)
    ensures |WithoutPlaybook(log, playbook)| <= |log|
    ensures log != [] && log[0].playbook == playbook ==> |WithoutPlaybook(log, playbook)| < |log|
  {
    if log != [] {
      RestIsShorter(log[..|log| - 1], playbook);
    }
  }

  lemma {:induction false} SplitOffPlaybook(log: seq<Record>, signature: string, playbook: string)
    ensures Total(log, signature, None) ==
      Total(log, signature, Some(playbook)) + Total(WithoutPlaybook(log, playbook), signature, None)
    ensures Worked(log, signature, None) ==
      Worked(log, signature, Some(playbook)) + Worked(WithoutPlaybook(log, playbook), signature, None)
    ensures Total(WithoutPlaybook(log, playbook), signature, Some(playbook)) == 0
  {
    if log != [] {
      var last := |log| - 1;
      SplitOffPlaybook(log[..last], signature, playbook);
      var rest := WithoutPlaybook(log[..last], playbook);
      CountsAppend(rest, log[last], signature, None);
      CountsAppend(rest, log[last], signature, Some(playbook));
    }
  }

  lemma {:induction false} OtherPlaybooksUntouched(log: seq<Record>, signature: string, playbook: string, other: string)
    requires other != playbook
    ensures Total(WithoutPlaybook(log, playbook), signature, Some(other)) == Total(log, signature, Some(other))
    ensures Worked(WithoutPlaybook(log, playbook), signature, Some(other)) == Worked(log, signature, Some(other))
  {
    if log != [] {
      var last := |log| - 1;
      OtherPlaybooksUntouched(log[..last], signature, playbook, other);
      CountsAppend(WithoutPlaybook(log[..last], playbook), log[last], signature, Some(other));
    }
  }

  lemma {:induction false} WorkedAtMostTotal(log: seq<Record>, signature: string, playbook: Option<string>)
    ensures Worked(log, signature, playbook) <= Total(log, signature, playbook)
  {
    if log != [] {
      WorkedAtMostTotal(log[..|log| - 1], signature, playbook);
    }
  }

  lemma RestStillMeets(log: seq<Record>, signature: string, p: string, threshold: real)
    requires Total(log, signature, None) > 0
    requires Ratio(Worked(log, signature, None), Total(log, signature, None)) >= threshold
    requires Total(log, signature, Some(p)) > 0 ==>
      Ratio(Worked(log, signature, Some(p)), Total(log, signature, Some(p))) < threshold
    ensures
      var rest := WithoutPlaybook(log, p);
      Total(rest, signature, None) > 0 &&
        Ratio(Worked(rest, signature, None), Total(rest, signature, None)) >= threshold
  {
    SplitOffPlaybook(log, signature, p);
    WorkedAtMostTotal(log, signature, Some(p));
    WorkedAtMostTotal(WithoutPlaybook(log, p), signature, None);
    var rest := WithoutPlaybook(log, p);
    RestMeets(Worked(log, signature, None), Total(log, signature, None),
      Worked(log, signature, Some(p)), Total(log, signature, Some(p)),
      Worked(rest, signature, None), Total(rest, signature, None), threshold);
  }

  /** When a signature's record meets the threshold, so does the record of at least one playbook on it. */
  lemma {:induction false} SomePlaybookEarnsIt(log: seq<Record>, signature: string,
    threshold: real) returns (playbook: string)
    requires Total(log, signature, None) > 0
    requires Ratio(Worked(log, signature, None), Total(log, signature, None)) >= threshold
    ensures Total(log, signature, Some(playbook)) > 0
    ensures Ratio(Worked(log, signature, Some(playbook)), Total(log, signature, Some(playbook))) >= threshold
    decreases |log|
  {
    var p := log[0].playbook;
    var rest := WithoutPlaybook(log, p);
    var workedP, totalP := Worked(log, signature, Some(p)), Total(log, signature, Some(p));
    if totalP > 0 && Ratio(workedP, totalP) >= threshold {
      playbook := p;
    } else {
      RestStillMeets(log, signature, p, threshold);
      RestIsShorter(log, p);
      playbook := SomePlaybookEarnsIt(rest, signature, threshold);
      SplitOffPlaybook(log, signature, p);
      OtherPlaybooksUntouched(log, signature, p, playbook);
    }
  }

  lemma RestMeets(worked: nat, total: nat, workedP: nat, totalP: nat, restWorked: nat, restTotal: nat, threshold: real)
    requires total > 0 && worked == workedP + restWorked && total == totalP + restTotal
    requires workedP <= totalP && restWorked <= restTotal
    requires Ratio(worked, total) >= threshold
    requires totalP > 0 ==> Ratio(workedP, totalP) < threshold
    ensures restTotal > 0 && Ratio(restWorked, restTotal) >= threshold
  {
    RatioMeets(worked, total, threshold);
    if totalP > 0 {
      RatioMeets(workedP, totalP, threshold);
      assert workedP as real < threshold * totalP as real;
      assert threshold * total as real == threshold * totalP as real + threshold * restTotal as real;
      if restTotal > 0 {
        RatioMeets(restWorked, restTotal, threshold);
      }
    }
  }

  /** With a single playbook on a signature, correlation's request and action's check coincide. */
  lemma {:induction false} OnePlaybookCountsAlike(log: seq<Record>, signature: string, playbook: string)
    requires forall r :: r in log && IsReal(r) && r.signature == signature ==> r.playbook == playbook
    ensures Total(log, signature, Some(playbook)) == Total(log, signature, None)
    ensures Worked(log, signature, Some(playbook)) == Worked(log, signature, None)
  {
    if log != [] {
      OnePlaybookCountsAlike(log[..|log| - 1], signature, playbook);
    }
  }

  lemma OnePlaybookIsJudgedAlike(log: seq<Record>, signature: string, playbook: string, threshold: real,
    minSamples: int)
    requires forall r :: r in log && IsReal(r) && r.signature == signature ==> r.playbook == playbook
    ensures QuietEligible(log, signature, playbook, threshold, minSamples) <==>
      SuppressVerdict(RealRecords(log), signature, threshold, Max(1, minSamples))
  {
    OnePlaybookCountsAlike(log, signature, playbook);
    CountsAgree(log, signature);
  }
}
