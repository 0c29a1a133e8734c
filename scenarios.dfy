/**
 * Two whole runs against a fixed service state (the results `ValidateIssues`
 * returns are `Process` of each number, in order):
 * a sub-task without a parent next to a closed issue, and a user story under a
 * theme found through a timeline with a non-issue link and a later relink.
 */
module Scenarios {
  import opened Wrappers
  import opened Hierarchy
  import opened Issues
  import opened Validation
  import opened Batch

  /** Issue 10: open sub-task with an empty timeline; issue 20: closed; every other number: not found. */
  function MixedRemote(): Remote
  {
    Remote(
      n => if n == 10 then Ok(RawIssue(10, "Orphan sub-task", [RawLabel("sub-task")], Open))
           else if n == 20 then Ok(RawIssue(20, "Finished work", [RawLabel("task")], Closed))
           else Err("GitHub API error: 404"),
      n => Ok([]))
  }

  /**
   * Running on [10, 20]: issue 10 fails with "must be a sub-issue of a task",
   * issue 20 passes with the "closed" warning; the run fails with one valid
   * and one invalid issue, and issue 20's parent is never looked up.
   */
  lemma MixedBatchFails()
    ensures var results := [Process(MixedRemote(), 10), Process(MixedRemote(), 20)];
            results[0].verdict == Verdict(false, [MustBeSubIssueOf(10, SubTask, Task)], []) &&
            results[1].verdict == Verdict(true, [], [IssueClosed]) &&
            !AllValid(results) && CountValid(results) == 1 && CountInvalid(results) == 1
    ensures RequestLog(MixedRemote(), [10, 20]) == [10, 20]
  {
  }

  /**
   * Issue 30: open user story whose timeline holds a "connected" link to a
   * pull request, then a link to theme 31, then a later link to 40.
   * Issue 31: open theme. Issue 40: open task.
   */
  function StoryRemote(): Remote
  {
    Remote(
      n => if n == 30 then Ok(RawIssue(30, "Story", [RawLabel("user-story"), RawLabel("task")], Open))
           else if n == 31 then Ok(RawIssue(31, "Theme", [RawLabel("theme")], Open))
           else if n == 40 then Ok(RawIssue(40, "Task", [RawLabel("task")], Open))
           else Err("GitHub API error: 404"),
      n => if n == 30 then Ok([Event("labeled", None, None),
                               Event("connected", Some(12), Some("pull_request")),
                               Event("connected", Some(31), Some("issue")),
                               Event("connected", Some(40), Some("issue"))])
           else Ok([]))
  }

  /**
   * Running on [30]: the parent resolves to 31 (the pull-request link is
   * skipped and the later link to 40 ignored), 31 carries "theme", and the
   * run passes with no errors and no warnings.
   */
  lemma StoryUnderThemePasses()
    ensures var results := [Process(StoryRemote(), 30)];
            results[0].verdict == Verdict(true, [], []) && AllValid(results) &&
            CountValid(results) == 1 && CountInvalid(results) == 0
    ensures RequestLog(StoryRemote(), [30]) == [30, 31]
  {
    var remote := StoryRemote();
    var timeline := remote.timelines(30).value;
    assert timeline[1..][1..] == timeline[2..];
    assert FirstParentLink(timeline) == Some(31);
    assert LabelNames([RawLabel("user-story"), RawLabel("task")]) == ["user-story", "task"];
    assert FetchIssue(remote, 30) == Ok(Item(30, "Story", ["user-story", "task"], Open, Some(31)));
    assert LabelNames([RawLabel("theme")]) == ["theme"];
    assert FetchIssue(remote, 31) == Ok(Item(31, "Theme", ["theme"], Open, None));
    assert FindLevel(["user-story", "task"]) == Some(UserStory);
    var results := [Process(remote, 30)];
    assert [30][..0] == [];
  }
}
