/**
 Correlation suppresses by signature, action waives approvals by playbook. When does the one verdict
 guarantee that the other can follow? Decided here exactly, from the run counts alone.
*/
module Eligibility {
  import opened Prelude
  import opened Evidence

  /** What the reliability map, retrained on the real records of this log, says of a signature. */
  predicate Suppressed(log: seq<Record>, signature: string, threshold: real, minSamples: int) {
    var total := Total(log, signature, None);
    total >= minSamples && Ratio(Worked(log, signature, None), total) >= threshold
  }

  ghost predicate SomebodyEligible(log: seq<Record>, signature: string, threshold: real, minSamples: int) {
    exists playbook :: QuietEligible(log, signature, playbook, threshold, minSamples)
  }

  /** The verdict is the one the correlator gives. */
  lemma SuppressedIsTheMapsVerdict(log: seq<Record>, signature: string, threshold: real, minSamples: int)
    ensures Suppressed(log, signature, threshold, minSamples) <==>
      SuppressVerdict(RealRecords(log), signature, threshold, minSamples)
  {
    CountsAgree(log, signature);
  }

  /** Every playbook that ever really ran on the signature has runs enough to be judged. */
  ghost predicate EnoughRunsEach(log: seq<Record>, signature: string, minSamples: int) {
    forall playbook :: Total(log, signature, Some(playbook)) > 0 ==>
      Total(log, signature, Some(playbook)) >= Max(1, minSamples)
  }

  /** With enough runs of each playbook, a suppressed signature has a playbook that may run unasked. */
  lemma SuppressedHasEligible(log: seq<Record>, signature: string, threshold: real, minSamples: int)
    requires (threshold > 0.0 || minSamples > 0) && EnoughRunsEach(log, signature, minSamples)
    requires Suppressed(log, signature, threshold, minSamples)
    ensures SomebodyEligible(log, signature, threshold, minSamples)
  {
    var playbook := SomePlaybookEarnsIt(log, signature, threshold);
    assert QuietEligible(log, signature, playbook, threshold, minSamples);
  }

  // ---------------------------------------------------------------- the most that can go unearned

  lemma RatioGrows(u: nat, v: nat, n: nat)
    requires u <= v
    ensures Ratio(u, n) <= Ratio(v, n)
  {
    if n > 0 {
      assert v as real / n as real - u as real / n as real == (v - u) as real / n as real;
    }
  }

  /** The largest number of successes up to `w`, in `n` runs, whose ratio falls short of the threshold. */
  function MostBelow(w: nat, n: nat, threshold: real): (v: nat)
    requires threshold > 0.0
    ensures v <= w && Ratio(v, n) < threshold
    ensures forall u: nat :: v < u <= w ==> Ratio(u, n) >= threshold
  {
    if w == 0 || Ratio(w, n) < threshold then w else MostBelow(w - 1, n, threshold)
  }

  /** The most successes a playbook with `n` runs can have and still not be eligible. */
  function Unearned(n: nat, threshold: real, minSamples: int): nat
    requires threshold > 0.0
  {
    if n < Max(1, minSamples) then n else MostBelow(n, n, threshold)
  }

  lemma EarnedIff(w: nat, n: nat, threshold: real, minSamples: int)
    requires threshold > 0.0 && w <= n
    ensures n >= Max(1, minSamples) && Ratio(w, n) >= threshold <==> w > Unearned(n, threshold, minSamples)
  {
    if n >= Max(1, minSamples) && w <= Unearned(n, threshold, minSamples) {
      RatioGrows(w, Unearned(n, threshold, minSamples), n);
    }
  }

  lemma EligibleIffEarned(log: seq<Record>, signature: string, playbook: string, threshold: real, minSamples: int)
    requires threshold > 0.0
    ensures QuietEligible(log, signature, playbook, threshold, minSamples) <==>
      Worked(log, signature, Some(playbook)) > Unearned(Total(log, signature, Some(playbook)), threshold, minSamples)
  {
    WorkedAtMostTotal(log, signature, Some(playbook));
    EarnedIff(Worked(log, signature, Some(playbook)), Total(log, signature, Some(playbook)), threshold, minSamples);
  }

  /** The most successes on a signature that its run counts allow with nobody eligible. */
  function MostUnearned(log: seq<Record>, signature: string, threshold: real, minSamples: int): nat
    requires threshold > 0.0
    decreases |log|
  {
    if log == [] then 0
    else
      var playbook := log[0].playbook;
      RestIsShorter(log, playbook);
      Unearned(Total(log, signature, Some(playbook)), threshold, minSamples) +
      MostUnearned(WithoutPlaybook(log, playbook), signature, threshold, minSamples)
  }

  /** What the counts of the other playbooks are once one has been taken out. */
  lemma RestCounts(log: seq<Record>, signature: string, taken: string, playbook: string)
    ensures
      var rest := WithoutPlaybook(log, taken);
      && Total(rest, signature, Some(playbook)) ==
        (if playbook == taken then 0 else Total(log, signature, Some(playbook)))
      && Worked(rest, signature, Some(playbook)) ==
        (if playbook == taken then 0 else Worked(log, signature, Some(playbook)))
  {
    if playbook == taken {
      SplitOffPlaybook(log, signature, taken);
      WorkedAtMostTotal(WithoutPlaybook(log, taken), signature, Some(taken));
    } else {
      OtherPlaybooksUntouched(log, signature, taken, playbook);
    }
  }

  ghost predicate AllUnearned(log: seq<Record>, signature: string, threshold: real, minSamples: int)
    requires threshold > 0.0
  {
    forall playbook ::
      Worked(log, signature, Some(playbook)) <= Unearned(Total(log, signature, Some(playbook)), threshold, minSamples)
  }

  ghost predicate AllJustUnearned(log: seq<Record>, signature: string, threshold: real, minSamples: int)
    requires threshold > 0.0
  {
    forall playbook ::
      Worked(log, signature, Some(playbook)) == Unearned(Total(log, signature, Some(playbook)), threshold, minSamples)
  }

  lemma {:induction false} NobodyEligibleBounds(log: seq<Record>, signature: string, threshold: real, minSamples: int)
    requires threshold > 0.0
    requires AllUnearned(log, signature, threshold, minSamples)
    ensures Worked(log, signature, None) <= MostUnearned(log, signature, threshold, minSamples)
    decreases |log|
  {
    if log != [] {
      var taken := log[0].playbook;
      var rest := WithoutPlaybook(log, taken);
      RestIsShorter(log, taken);
      forall playbook
        ensures Worked(rest, signature, Some(playbook)) <=
          Unearned(Total(rest, signature, Some(playbook)), threshold, minSamples)
      {
        RestCounts(log, signature, taken, playbook);
      }
      NobodyEligibleBounds(rest, signature, threshold, minSamples);
      SplitOffPlaybook(log, signature, taken);
    }
  }

  lemma {:induction false} BoundIsReached(log: seq<Record>, signature: string, threshold: real, minSamples: int)
    requires threshold > 0.0
    requires AllJustUnearned(log, signature, threshold, minSamples)
    ensures Worked(log, signature, None) == MostUnearned(log, signature, threshold, minSamples)
    decreases |log|
  {
    if log != [] {
      var taken := log[0].playbook;
      var rest := WithoutPlaybook(log, taken);
      RestIsShorter(log, taken);
      forall playbook
        ensures Worked(rest, signature, Some(playbook)) ==
          Unearned(Total(rest, signature, Some(playbook)), threshold, minSamples)
      {
        RestCounts(log, signature, taken, playbook);
      }
      BoundIsReached(rest, signature, threshold, minSamples);
      SplitOffPlaybook(log, signature, taken);
    }
  }

  // ---------------------------------------------------------------- the same runs with other endings

  /** The same runs of the same playbooks, some of which may have ended otherwise. */
  ghost predicate SameRuns(log: seq<Record>, other: seq<Record>) {
    |log| == |other| && forall i :: 0 <= i < |log| ==> other[i] == log[i].(worked := other[i].worked)
  }

  lemma {:induction false} SameTotals(log: seq<Record>, other: seq<Record>, signature: string, playbook: Option<string>)
    requires SameRuns(log, other)
    ensures Total(log, signature, playbook) == Total(other, signature, playbook)
  {
    if log != [] {
      var last := |log| - 1;
      SameTotals(log[..last], other[..last], signature, playbook);
    }
  }

  lemma SameRunsAppend(log: seq<Record>, other: seq<Record>, r: Record, q: Record)
    requires SameRuns(log, other) && q == r.(worked := q.worked)
    ensures SameRuns(log + [r], other + [q])
  {
  }

  lemma {:induction false} SameRest(log: seq<Record>, other: seq<Record>, playbook: string)
    requires SameRuns(log, other)
    ensures SameRuns(WithoutPlaybook(log, playbook), WithoutPlaybook(other, playbook))
  {
    if log != [] {
      var last := |log| - 1;
      SameRest(log[..last], other[..last], playbook);
      SameRunsAppend(WithoutPlaybook(log[..last], playbook), WithoutPlaybook(other[..last], playbook), log[last],
        other[last]);
    }
  }

  lemma {:induction false} SameBound(log: seq<Record>, other: seq<Record>, signature: string, threshold: real,
    minSamples: int)
    requires SameRuns(log, other) && threshold > 0.0
    ensures MostUnearned(log, signature, threshold, minSamples) == MostUnearned(other, signature, threshold, minSamples)
    decreases |log|
  {
    if log != [] {
      var playbook := log[0].playbook;
      RestIsShorter(log, playbook);
      SameTotals(log, other, signature, Some(playbook));
      SameRest(log, other, playbook);
      SameBound(WithoutPlaybook(log, playbook), WithoutPlaybook(other, playbook), signature, threshold, minSamples);
    }
  }

  /** The same runs, each playbook's first ones succeeding up to its quota. */
  function Relabel(log: seq<Record>, signature: string, quota: string -> nat): (other: seq<Record>)
    ensures |other| == |log|
  {
    if log == [] then []
    else
      var r, earlier := log[|log| - 1], Relabel(log[..|log| - 1], signature, quota);
      earlier + [r.(worked := Worked(earlier, signature, Some(r.playbook)) < quota(r.playbook))]
  }

  lemma {:induction false} RelabelSame(log: seq<Record>, signature: string, quota: string -> nat)
    ensures SameRuns(log, Relabel(log, signature, quota))
  {
    if log != [] {
      RelabelSame(log[..|log| - 1], signature, quota);
    }
  }

  /** One more run of a playbook succeeds exactly while its quota is not used up. */
  lemma OneMoreRun(earlier: seq<Record>, r: Record, signature: string, playbook: string, quota: nat, total: nat)
    requires Worked(earlier, signature, Some(playbook)) == Min(quota, total)
    requires r.playbook == playbook ==> (r.worked <==> Worked(earlier, signature, Some(playbook)) < quota)
    ensures Worked(earlier + [r], signature, Some(playbook)) ==
      Min(quota, total + if Concerns(r, signature, Some(playbook)) then 1 else 0)
  {
    CountsAppend(earlier, r, signature, Some(playbook));
  }

  lemma {:induction false} RelabelCounts(log: seq<Record>, signature: string, quota: string -> nat, playbook: string)
    ensures Worked(Relabel(log, signature, quota), signature, Some(playbook)) ==
      Min(quota(playbook), Total(log, signature, Some(playbook)))
  {
    if log != [] {
      var last := |log| - 1;
      var earlier := Relabel(log[..last], signature, quota);
      var r := log[last].(worked := Worked(earlier, signature, Some(log[last].playbook)) < quota(log[last].playbook));
      RelabelCounts(log[..last], signature, quota, playbook);
      OneMoreRun(earlier, r, signature, playbook, quota(playbook), Total(log[..last], signature, Some(playbook)));
    }
  }

  /**
   Where the bound meets the threshold, these runs can end so that the signature is suppressed and yet no
   playbook may run unasked.
   */
  lemma SuppressedYetNobodyEligible(log: seq<Record>, signature: string, threshold: real,
    minSamples: int) returns (other: seq<Record>)
    requires threshold > 0.0 && Total(log, signature, None) >= Max(1, minSamples)
    requires Ratio(MostUnearned(log, signature, threshold, minSamples), Total(log, signature, None)) >= threshold
    ensures SameRuns(log, other) && Suppressed(other, signature, threshold, minSamples)
    ensures !SomebodyEligible(other, signature, threshold, minSamples)
  {
    var quota := (playbook: string) => Unearned(Total(log, signature, Some(playbook)), threshold, minSamples);
    other := Relabel(log, signature, quota);
    RelabelSame(log, signature, quota);
    forall playbook
      ensures Worked(other, signature, Some(playbook)) ==
        Unearned(Total(other, signature, Some(playbook)), threshold, minSamples)
    {
      RelabelCounts(log, signature, quota, playbook);
      SameTotals(log, other, signature, Some(playbook));
      EligibleIffEarned(other, signature, playbook, threshold, minSamples);
    }
    BoundIsReached(other, signature, threshold, minSamples);
    SameBound(log, other, signature, threshold, minSamples);
    SameTotals(log, other, signature, None);
    forall playbook ensures !QuietEligible(other, signature, playbook, threshold, minSamples) {
      EligibleIffEarned(other, signature, playbook, threshold, minSamples);
    }
  }

  lemma BoundGuarantees(log: seq<Record>, signature: string, threshold: real, minSamples: int)
    requires threshold > 0.0 && Suppressed(log, signature, threshold, minSamples)
    requires Ratio(MostUnearned(log, signature, threshold, minSamples), Total(log, signature, None)) < threshold
    ensures SomebodyEligible(log, signature, threshold, minSamples)
  {
    if !SomebodyEligible(log, signature, threshold, minSamples) {
      forall playbook
        ensures Worked(log, signature, Some(playbook)) <= Unearned(Total(log, signature, Some(playbook)), threshold,
          minSamples)
      {
        EligibleIffEarned(log, signature, playbook, threshold, minSamples);
      }
      NobodyEligibleBounds(log, signature, threshold, minSamples);
      RatioGrows(Worked(log, signature, None), MostUnearned(log, signature, threshold, minSamples),
        Total(log, signature, None));
    }
  }

  /** However these runs ended: if the signature is suppressed, some playbook may run unasked. */
  ghost predicate Guaranteed(log: seq<Record>, signature: string, threshold: real, minSamples: int) {
    forall other :: SameRuns(log, other) && Suppressed(other, signature, threshold, minSamples) ==>
      SomebodyEligible(other, signature, threshold, minSamples)
  }

  /**
   The run counts alone decide: suppression guarantees an eligible playbook if and only if the most
   successes that leave everybody ineligible fall short of the threshold on the signature as a whole.
   */
  lemma GuaranteedIff(log: seq<Record>, signature: string, threshold: real, minSamples: int)
    requires threshold > 0.0 && Total(log, signature, None) >= Max(1, minSamples)
    ensures Guaranteed(log, signature, threshold, minSamples) <==>
      Ratio(MostUnearned(log, signature, threshold, minSamples), Total(log, signature, None)) < threshold
  {
    if Ratio(MostUnearned(log, signature, threshold, minSamples), Total(log, signature, None)) < threshold {
      forall other | SameRuns(log, other) && Suppressed(other, signature, threshold, minSamples)
        ensures SomebodyEligible(other, signature, threshold, minSamples)
      {
        SameBound(log, other, signature, threshold, minSamples);
        SameTotals(log, other, signature, None);
        BoundGuarantees(other, signature, threshold, minSamples);
      }
    } else {
      var other := SuppressedYetNobodyEligible(log, signature, threshold, minSamples);
      assert SameRuns(log, other);
    }
  }
}
