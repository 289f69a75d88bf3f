/** Maximal runs of `true` in a sequence of flags. Two loops of the audio
    analyser scan flags once, left to right, and record every maximal run:
    the pause counter of `analyze_speech_rate` (runs of silent frames) and
    `split_on_silence` (runs of non-silent chunks). Both are proved against
    `Runs` below, whose meaning is stated by `IsRunDecomposition`. */
module FlagRuns {

  /** The half-open index range `[start, end)`. */
  datatype Run = Run(start: nat, end: nat)
  {
    function Length(): int { end - start }
  }

  /** `r` is a maximal run of `true` in `s`. */
  predicate Maximal(s: seq<bool>, r: Run)
  {
    && r.start < r.end <= |s|
    && (forall i :: r.start <= i < r.end ==> s[i])
    && (r.start == 0 || !s[r.start - 1])
    && (r.end == |s| || !s[r.end])
  }

  /** The runs are in increasing order and separated by at least one index. */
  predicate Separated(rs: seq<Run>)
  {
    forall k :: 0 <= k < |rs| - 1 ==> rs[k].end < rs[k + 1].start
  }

  predicate InRun(rs: seq<Run>, i: int)
  {
    exists k :: 0 <= k < |rs| && rs[k].start <= i < rs[k].end
  }

  /** `rs` lists, in order, every maximal run of `true` in `s` and nothing else. */
  predicate IsRunDecomposition(s: seq<bool>, rs: seq<Run>)
  {
    && Separated(rs)
    && (forall k :: 0 <= k < |rs| ==> Maximal(s, rs[k]))
    && (forall i :: 0 <= i < |s| ==> (s[i] <==> InRun(rs, i)))
  }

  /** The length of the run of `true` ending just before index `k` (the run
      still open after a scan of `s[..k]`). */
  function Trail(s: seq<bool>, k: nat): (n: nat)
    requires k <= |s|
    ensures n <= k
    ensures forall i :: k - n <= i < k ==> s[i]
    ensures n < k ==> !s[k - n - 1]
  {
    if k == 0 then 0
    else if s[k - 1] then Trail(s, k - 1) + 1
    else 0
  }

  /** The runs already closed (followed by a `false`) after a scan of `s[..k]`. */
  function Closed(s: seq<bool>, k: nat): seq<Run>
    requires k <= |s|
  {
    if k == 0 then []
    else if !s[k - 1] && Trail(s, k - 1) > 0 then Closed(s, k - 1) + [Run(k - 1 - Trail(s, k - 1), k - 1)]
    else Closed(s, k - 1)
  }

  /** One more flag: a `true` extends the open run, a `false` closes it. */
  lemma ScanStep(s: seq<bool>, k: nat)
    requires k < |s|
    ensures Trail(s, k + 1) == if s[k] then Trail(s, k) + 1 else 0
    ensures Closed(s, k + 1) == if !s[k] && Trail(s, k) > 0 then Closed(s, k) + [Run(k - Trail(s, k), k)] else Closed(s, k)
  {
  }

  /** All maximal runs of `true` in `s`, in order: the closed runs and, if the
      scan ends inside a run, that run. */
  function Runs(s: seq<bool>): seq<Run>
  {
    Closed(s, |s|) + if Trail(s, |s|) > 0 then [Run(|s| - Trail(s, |s|), |s|)] else []
  }

  lemma InRunAppend(rs: seq<Run>, r: Run, i: int)
    ensures InRun(rs + [r], i) <==> InRun(rs, i) || r.start <= i < r.end
  {
    var ts := rs + [r];
    if InRun(ts, i) {
      var k :| 0 <= k < |ts| && ts[k].start <= i < ts[k].end;
      if k < |rs| { assert ts[k] == rs[k]; }
    }
    if InRun(rs, i) {
      var k :| 0 <= k < |rs| && rs[k].start <= i < rs[k].end;
      assert ts[k] == rs[k];
    }
    if r.start <= i < r.end {
      assert ts[|rs|] == r;
    }
  }

  /** An index at or after every run's end is in no run. */
  lemma NotInRunBeyond(rs: seq<Run>, bound: int, i: int)
    requires forall k :: 0 <= k < |rs| ==> rs[k].end <= bound
    requires bound <= i
    ensures !InRun(rs, i)
  {
  }

  /** What a left-to-right scan knows after reading `s[..k]`: the closed runs
      are maximal runs of `s` and separated, they end before the open run, and
      together with the open run they cover every `true` before `k`. */
  predicate ScanFacts(s: seq<bool>, k: nat)
    requires k <= |s|
  {
    && Separated(Closed(s, k))
    && (forall q :: 0 <= q < |Closed(s, k)| ==>
          Maximal(s, Closed(s, k)[q]) && Closed(s, k)[q].end < k - Trail(s, k))
    && (forall i :: 0 <= i < k - Trail(s, k) ==> (s[i] <==> InRun(Closed(s, k), i)))
  }

  /** A `false` after a non-empty open run closes it as a maximal run. */
  lemma ScanFactsClose(s: seq<bool>, p: nat)
    requires p < |s| && ScanFacts(s, p)
    requires !s[p] && Trail(s, p) > 0
    ensures ScanFacts(s, p + 1)
  {
    var cp := Closed(s, p);
    var r := Run(p - Trail(s, p), p);
    assert Closed(s, p + 1) == cp + [r];
    assert Maximal(s, r);
    forall i | 0 <= i < p + 1 ensures s[i] <==> InRun(cp + [r], i) {
      InRunAppend(cp, r, i);
      if i == p {
        NotInRunBeyond(cp, p, i);
      }
    }
  }

  /** A `true` extends the open run; a `false` after none closes nothing. */
  lemma ScanFactsKeep(s: seq<bool>, p: nat)
    requires p < |s| && ScanFacts(s, p)
    requires !(!s[p] && Trail(s, p) > 0)
    ensures ScanFacts(s, p + 1)
  {
    var cp := Closed(s, p);
    assert Closed(s, p + 1) == cp;
    forall i | 0 <= i < p + 1 - Trail(s, p + 1) ensures s[i] <==> InRun(cp, i) {
      if i == p {
        NotInRunBeyond(cp, p, i);
      }
    }
  }

  /** Every prefix scan has the facts `ScanFacts` states. */
  lemma {:induction false} ClosedFacts(s: seq<bool>, k: nat)
    requires k <= |s|
    ensures ScanFacts(s, k)
  {
    if k > 0 {
      ClosedFacts(s, k - 1);
      if !s[k - 1] && Trail(s, k - 1) > 0 {
        ScanFactsClose(s, k - 1);
      } else {
        ScanFactsKeep(s, k - 1);
      }
    }
  }

  /** `Runs(s)` is exactly the decomposition of `s` into maximal runs. */
  lemma RunsDecompose(s: seq<bool>)
    ensures IsRunDecomposition(s, Runs(s))
  {
    ClosedFacts(s, |s|);
    var cs := Closed(s, |s|);
    var t := Trail(s, |s|);
    if t > 0 {
      var r := Run(|s| - t, |s|);
      assert Runs(s) == cs + [r];
      assert Maximal(s, r);
      forall i | 0 <= i < |s| ensures s[i] <==> InRun(cs + [r], i) {
        InRunAppend(cs, r, i);
        if i >= |s| - t {
          NotInRunBeyond(cs, |s| - t, i);
        }
      }
    } else {
      assert Runs(s) == cs;
    }
  }

  /** There is no run exactly when no flag is set. */
  lemma NoRunsIffAllFalse(s: seq<bool>)
    ensures Runs(s) == [] <==> forall i :: 0 <= i < |s| ==> !s[i]
  {
    RunsDecompose(s);
    if Runs(s) != [] {
      var r := Runs(s)[0];
      assert Maximal(s, r) && s[r.start];
    }
  }

  /** Every run is non-empty. */
  lemma RunLengthsPositive(s: seq<bool>)
    ensures forall k :: 0 <= k < |Runs(s)| ==> Runs(s)[k].Length() >= 1
  {
    RunsDecompose(s);
  }

  /** A sequence with every flag set is one run. */
  lemma {:induction false} AllTrueOneRun(s: seq<bool>, k: nat)
    requires k <= |s|
    requires forall i :: 0 <= i < |s| ==> s[i]
    ensures Trail(s, k) == k && Closed(s, k) == []
    ensures s != [] && k == |s| ==> Runs(s) == [Run(0, |s|)]
  {
    if k > 0 {
      AllTrueOneRun(s, k - 1);
    }
  }
}
