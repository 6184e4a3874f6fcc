/**
 * pkg/reporter/reporter.go: the list of per-table results and the counts of
 * the final summary. Printing and the elapsed time are not modelled.
 */
module Reporter {
  import opened Executor

  /** `Summary` without its `Duration`. */
  datatype Summary = Summary(total: nat, success: nat, failed: nat, skipped: nat)

  /** The one bucket a result is counted in. */
  datatype Bucket = SkippedBucket | SuccessBucket | FailedBucket

  /** Skipped is tested first, then Success; everything else failed. */
  function BucketOf(r: ExecutionResult): (b: Bucket)
    ensures b == SkippedBucket <==> r.skipped
    ensures b == SuccessBucket <==> !r.skipped && r.success
    ensures b == FailedBucket <==> !r.skipped && !r.success
  {
    if r.skipped then SkippedBucket else if r.success then SuccessBucket else FailedBucket
  }

  /** Number of results in bucket `b`. */
  function CountIn(results: seq<ExecutionResult>, b: Bucket): (n: nat)
    ensures n <= |results|
    decreases |results|
  {
    if results == [] then 0
    else CountIn(results[..|results| - 1], b) + (if BucketOf(results[|results| - 1]) == b then 1 else 0)
  }

  /** The counts `PrintSummary` computes. */
  function Tally(results: seq<ExecutionResult>): Summary
  {
    Summary(|results|, CountIn(results, SuccessBucket), CountIn(results, FailedBucket), CountIn(results, SkippedBucket))
  }

  /** The results listed under the failed tables: neither successful nor skipped, in insertion order. */
  function FailedResults(results: seq<ExecutionResult>): seq<ExecutionResult>
    decreases |results|
  {
    if results == [] then []
    else
      var last := results[|results| - 1];
      FailedResults(results[..|results| - 1]) + (if !last.success && !last.skipped then [last] else [])
  }

  /** Every result lands in exactly one bucket: the three counts add up to the total. */
  lemma {:induction false} TallyPartitions(results: seq<ExecutionResult>)
    ensures Tally(results).success + Tally(results).failed + Tally(results).skipped == Tally(results).total
    decreases |results|
  {
    if results != [] {
      TallyPartitions(results[..|results| - 1]);
    }
  }

  /**
   * The failed-table listing holds exactly the results counted as failed, and
   * so is non-empty exactly when the failed count is positive.
   */
  lemma {:induction false} FailedResultsMatchTally(results: seq<ExecutionResult>)
    ensures |FailedResults(results)| == Tally(results).failed
    ensures forall r :: r in FailedResults(results) <==> r in results && BucketOf(r) == FailedBucket
    decreases |results|
  {
    if results != [] {
      var init := results[..|results| - 1];
      FailedResultsMatchTally(init);
      assert results == init + [results[|results| - 1]];
    }
  }

  /** Appending one result raises the count of its own bucket by one and no other. */
  lemma TallyAppend(results: seq<ExecutionResult>, r: ExecutionResult)
    ensures var before, after := Tally(results), Tally(results + [r]);
      && after.total == before.total + 1
      && after.skipped == before.skipped + (if r.skipped then 1 else 0)
      && after.success == before.success + (if !r.skipped && r.success then 1 else 0)
      && after.failed == before.failed + (if !r.skipped && !r.success then 1 else 0)
  {
    assert (results + [r])[..|results|] == results;
  }

  /** A skipped result counts as skipped even when its success flag is set. */
  lemma SkippedWinsOverSuccess(r: ExecutionResult)
    requires r.skipped && r.success
    ensures Tally([r]) == Summary(1, 0, 0, 1)
  {
    assert [r][..0] == [];
  }

  /** `Reporter`: the results added so far, in order. */
  class Reporter {
    var results: seq<ExecutionResult>
    const verbose: bool
    const dryRun: bool

    /** `NewReporter`: starts with no results. */
    constructor (verbose: bool, dryRun: bool)
      ensures results == [] && this.verbose == verbose && this.dryRun == dryRun
    {
      results := [];
      this.verbose := verbose;
      this.dryRun := dryRun;
    }

    /** `AddResult`: appends at the end, leaving earlier results unchanged. */
    method AddResult(result: ExecutionResult)
      modifies this
      ensures results == old(results) + [result]
    {
      results := results + [result];
    }

    /** `GetResults`: the results in insertion order. */
    function GetResults(): seq<ExecutionResult>
      reads this
    {
      results
    }

    /** The counting loop of `PrintSummary`. */
    method PrintSummary() returns (summary: Summary)
      ensures summary == Tally(results)
    {
      summary := Summary(|results|, 0, 0, 0);
      var i := 0;
      while i < |results|
        invariant 0 <= i <= |results|
        invariant summary == Tally(results[..i]).(total := |results|)
      {
        assert results[..i + 1][..i] == results[..i];
        var result := results[i];
        if result.skipped {
          summary := summary.(skipped := summary.skipped + 1);
        } else if result.success {
          summary := summary.(success := summary.success + 1);
        } else {
          summary := summary.(failed := summary.failed + 1);
        }
        i := i + 1;
      }
      assert results[..|results|] == results;
    }
  }
}
