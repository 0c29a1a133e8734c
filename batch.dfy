/**
 * The batch orchestrator `validateIssues`: validates the given issue numbers
 * one at a time, in order, records one result per number, and aggregates the
 * overall pass/fail flag and the valid/invalid counts.
 */
module Batch {
  import opened Wrappers
  import opened Hierarchy
  import opened Issues
  import opened Validation

  /** The `issue` field of a result: the fetched issue, or only the requested number when fetching failed. */
  datatype Subject = Fetched(item: Item) | NumberOnly(number: int)

  /** One per-issue result `{issue, valid, errors, warnings}`. */
  datatype Entry = Entry(issue: Subject, verdict: Verdict)

  /** What the run hands to the report: the overall flag, the results in input order, and the counts. */
  datatype Report = Report(allValid: bool, results: seq<Entry>, validCount: nat, invalidCount: nat)

  /** The result recorded when fetching the issue or its parent failed. */
  function FailedEntry(issueNumber: int, failure: FetchError): (e: Entry)
    ensures e.issue == NumberOnly(issueNumber) && !e.verdict.valid && e.verdict.warnings == []
    ensures e.verdict.errors == [FetchFailed(failure)]
  {
    Entry(NumberOnly(issueNumber), Verdict(false, [FetchFailed(failure)], []))
  }

  /** The result the loop body records for one issue number. */
  function Process(remote: Remote, issueNumber: int): (e: Entry)
    ensures e.issue.NumberOnly? ==> e.issue.number == issueNumber && !e.verdict.valid &&
                                    |e.verdict.errors| == 1 && e.verdict.warnings == []
    ensures e.issue.Fetched? ==> FetchIssue(remote, issueNumber) == Ok(e.issue.item)
    ensures e.issue.NumberOnly? <==>
              FetchIssue(remote, issueNumber).Err? ||
              (var issue := FetchIssue(remote, issueNumber).value;
               issue.state == Open && HasParent(issue.parent) && FetchIssue(remote, issue.parent.value).Err?)
  {
    match FetchIssue(remote, issueNumber)
    case Err(failure) => FailedEntry(issueNumber, failure)
    case Ok(issue) =>
      if issue.state == Closed then Entry(Fetched(issue), Verdict(true, [], [IssueClosed]))
      else if HasParent(issue.parent) then
        match FetchIssue(remote, issue.parent.value)
        case Err(failure) => FailedEntry(issueNumber, failure)
        case Ok(parentIssue) => Entry(Fetched(issue), ValidateIssueHierarchy(issue, Some(parentIssue)))
      else Entry(Fetched(issue), ValidateIssueHierarchy(issue, None))
  }

  /** The issue numbers `getIssue` is called with while one issue number is processed, in call order. */
  function Requests(remote: Remote, issueNumber: int): seq<int>
  {
    match FetchIssue(remote, issueNumber)
    case Ok(issue) =>
      if issue.state == Open && HasParent(issue.parent) then [issueNumber, issue.parent.value]
      else [issueNumber]
    case Err(_) => [issueNumber]
  }

  /** The `getIssue` calls of a whole run, in call order. */
  function RequestLog(remote: Remote, issueNumbers: seq<int>): seq<int>
  {
    if issueNumbers == [] then []
    else RequestLog(remote, issueNumbers[..|issueNumbers| - 1]) + Requests(remote, issueNumbers[|issueNumbers| - 1])
  }

  /** `results.filter(r => r.valid).length` */
  function CountValid(results: seq<Entry>): (n: nat)
    ensures n <= |results|
    ensures n == |results| ==> AllValid(results)
  {
    if results == [] then 0
    else (if results[0].verdict.valid then 1 else 0) + CountValid(results[1..])
  }

  /** `results.filter(r => !r.valid).length` */
  function CountInvalid(results: seq<Entry>): (n: nat)
    ensures n <= |results|
    ensures n == 0 ==> AllValid(results)
  {
    if results == [] then 0
    else (if results[0].verdict.valid then 0 else 1) + CountInvalid(results[1..])
  }

  /** Every result is valid. */
  predicate AllValid(results: seq<Entry>)
  {
    forall i :: 0 <= i < |results| ==> results[i].verdict.valid
  }

  /**
   * The two counts split the results: together they number every result, no
   * result is invalid exactly when every result is valid, and the valid count
   * is the number of results exactly when every result is valid.
   */
  lemma {:induction false} CountsPartition(results: seq<Entry>)
    ensures CountValid(results) + CountInvalid(results) == |results|
    ensures CountInvalid(results) == 0 <==> AllValid(results)
    ensures CountValid(results) == |results| <==> AllValid(results)
  {
    if results != [] {
      CountsPartition(results[1..]);
      assert AllValid(results) <==> results[0].verdict.valid && AllValid(results[1..]) by {
        assert forall i :: 1 <= i < |results| ==> results[i] == results[1..][i - 1];
        assert forall i :: 0 <= i < |results| - 1 ==> results[1..][i] == results[i + 1];
      }
    }
  }

  /** The log of a longer prefix of the input extends the log of the shorter one by the next number's calls. */
  lemma RequestLogStep(remote: Remote, issueNumbers: seq<int>, k: int)
    requires 0 <= k < |issueNumbers|
    ensures RequestLog(remote, issueNumbers[..k + 1]) == RequestLog(remote, issueNumbers[..k]) + Requests(remote, issueNumbers[k])
  {
    assert issueNumbers[..k + 1][..k] == issueNumbers[..k];
  }

  /** Appending one result keeps "every result is valid" exactly when the new result is valid. */
  lemma AllValidStep(results: seq<Entry>, entry: Entry)
    ensures AllValid(results + [entry]) <==> AllValid(results) && entry.verdict.valid
  {
    assert (results + [entry])[|results|] == entry;
    assert forall i :: 0 <= i < |results| ==> (results + [entry])[i] == results[i];
  }

  /**
   * The body of the per-issue loop of `validateIssues` (its `try` block and
   * its `catch`): fetches the issue, short-circuits a closed one, fetches the
   * parent when there is one, and validates. `requested` logs the issue
   * numbers `getIssue` is called with.
   */
  method CheckIssue(remote: Remote, issueNumber: int) returns (entry: Entry, ghost requested: seq<int>)
    ensures entry == Process(remote, issueNumber)
    ensures requested == Requests(remote, issueNumber)
  {
    requested := [issueNumber];
    var fetched := GetIssue(remote, issueNumber);
    if fetched.Err? {
      return FailedEntry(issueNumber, fetched.error), requested;
    }
    var issue := fetched.value;

    if issue.state == Closed {
      return Entry(Fetched(issue), Verdict(true, [], [IssueClosed])), requested;
    }

    var parentIssue: Option<Item> := None;
    if HasParent(issue.parent) {
      requested := requested + [issue.parent.value];
      var parentFetched := GetIssue(remote, issue.parent.value);
      if parentFetched.Err? {
        return FailedEntry(issueNumber, parentFetched.error), requested;
      }
      parentIssue := Some(parentFetched.value);
    }

    var validation := ValidateIssueHierarchy(issue, parentIssue);
    entry := Entry(Fetched(issue), validation);
  }

  /**
   * `validateIssues(issueNumbers)` with the service as `remote`: one result
   * per issue number, in input order, the overall flag and the counts.
   * `requested` logs the issue numbers `getIssue` is called with.
   */
  method ValidateIssues(remote: Remote, issueNumbers: seq<int>) returns (report: Report, ghost requested: seq<int>)
    ensures |report.results| == |issueNumbers|
    ensures forall i :: 0 <= i < |issueNumbers| ==> report.results[i] == Process(remote, issueNumbers[i])
    ensures report.allValid <==> AllValid(report.results)
    ensures report.validCount + report.invalidCount == |issueNumbers|
    ensures report.invalidCount == 0 <==> report.allValid
    ensures report.validCount == CountValid(report.results) && report.invalidCount == CountInvalid(report.results)
    ensures requested == RequestLog(remote, issueNumbers)
  {
    hide Process, Requests;
    var allValid := true;
    var results: seq<Entry> := [];
    requested := [];
    for k := 0 to |issueNumbers|
      invariant |results| == k
      invariant forall i :: 0 <= i < k ==> results[i] == Process(remote, issueNumbers[i])
      invariant allValid <==> AllValid(results)
      invariant requested == RequestLog(remote, issueNumbers[..k])
    {
      var entry, calls := CheckIssue(remote, issueNumbers[k]);
      RequestLogStep(remote, issueNumbers, k);
      AllValidStep(results, entry);
      requested := requested + calls;
      results := results + [entry];
      if !entry.verdict.valid {
        allValid := false;
      }
    }
    assert issueNumbers[..|issueNumbers|] == issueNumbers;
    CountsPartition(results);
    report := Report(allValid, results, CountValid(results), CountInvalid(results));
  }

  /** Every recorded verdict is valid exactly when it has no error, and has at most one error. */
  lemma ProcessWellFormed(remote: Remote, issueNumber: int)
    ensures WellFormed(Process(remote, issueNumber).verdict)
  {
  }

  /**
   * A closed issue is recorded as valid, without errors, with the single
   * "closed" warning, and its parent is never fetched.
   */
  lemma ClosedEntry(remote: Remote, issueNumber: int)
    requires FetchIssue(remote, issueNumber).Ok? && FetchIssue(remote, issueNumber).value.state == Closed
    ensures Process(remote, issueNumber) == Entry(Fetched(FetchIssue(remote, issueNumber).value), Verdict(true, [], [IssueClosed]))
    ensures Requests(remote, issueNumber) == [issueNumber]
  {
  }

  /** A failed fetch of the issue is recorded as invalid with that failure as its only error and no warning. */
  lemma IssueFetchFailureEntry(remote: Remote, issueNumber: int)
    requires remote.issues(issueNumber).Err? || remote.timelines(issueNumber).Err?
    ensures Process(remote, issueNumber) == FailedEntry(issueNumber, FetchIssue(remote, issueNumber).error)
    ensures FetchIssue(remote, issueNumber).error.number == issueNumber
  {
  }

  /**
   * A failed fetch of an open issue's parent fails the issue itself: invalid,
   * the parent's fetch failure as its only error, no warning. It is never
   * treated as "no parent".
   */
  lemma ParentFetchFailureEntry(remote: Remote, issueNumber: int)
    requires FetchIssue(remote, issueNumber).Ok?
    requires FetchIssue(remote, issueNumber).value.state == Open
    requires HasParent(FetchIssue(remote, issueNumber).value.parent)
    requires FetchIssue(remote, FetchIssue(remote, issueNumber).value.parent.value).Err?
    ensures var parent := FetchIssue(remote, issueNumber).value.parent.value;
            Process(remote, issueNumber) == FailedEntry(issueNumber, FetchIssue(remote, parent).error) &&
            FetchIssue(remote, parent).error.number == parent
  {
  }

  /**
   * Within a run, an open user story, task or sub-task with a parent is
   * always checked against its fetched parent: it is valid exactly when that
   * parent carries the required parent label. The validator's branch that
   * skips the check for a missing snapshot is never taken in a run.
   */
  lemma SnapshotAlwaysSupplied(remote: Remote, issueNumber: int, i: int, level: Level)
    requires FetchIssue(remote, issueNumber).Ok?
    requires var issue := FetchIssue(remote, issueNumber).value;
             issue.state == Open && HasParent(issue.parent) &&
             FirstHierarchyLabelAt(issue.labels, i, level) && level != Theme
    requires FetchIssue(remote, FetchIssue(remote, issueNumber).value.parent.value).Ok?
    ensures var parent := FetchIssue(remote, FetchIssue(remote, issueNumber).value.parent.value).value;
            Process(remote, issueNumber).verdict.valid <==> Name(RequiredParent(level).value) in parent.labels
  {
    var issue := FetchIssue(remote, issueNumber).value;
    ParentLabelVerdict(issue, Some(FetchIssue(remote, issue.parent.value).value), i, level);
  }

  /** Each issue number causes one or two `getIssue` calls, the first for the number itself. */
  lemma {:induction false} RequestLogLength(remote: Remote, issueNumbers: seq<int>)
    ensures |issueNumbers| <= |RequestLog(remote, issueNumbers)| <= 2 * |issueNumbers|
  {
    if issueNumbers != [] {
      RequestLogLength(remote, issueNumbers[..|issueNumbers| - 1]);
    }
  }
}
