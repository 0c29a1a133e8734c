# Issue hierarchy validation engine, modelled in Dafny

The script `scripts/validate-issue-hierarchy.js` checks that GitHub issues form a
four-level hierarchy: Theme → User Story → Task → Sub-Task. Every issue labelled
`user-story`, `task` or `sub-task` must be a sub-issue of an issue carrying the
label one level up. A `theme` should have no parent. Issues with no hierarchy
label only get a warning, and none at all when they carry a standalone label
such as `bug`.

This project models the engine of that script and proves what it decides:

- `wrappers.dfy` (`Wrappers`): `Option` and `Result`.
- `hierarchy.dfy` (`Hierarchy`): the rule table `HIERARCHY` as the datatype
  `Level` with `Name` and `RequiredParent`, and the lookup of a label among the
  table's keys (`LevelNamed`). It also holds the standalone label list and
  `FindLevel`, which is the `labels.find(...)` that picks an issue's level.
- `issues.dfy` (`Issues`): `getIssue`. The remote service is an oracle
  `Remote` that answers the issue request and the timeline request for each
  issue number with the decoded JSON or the error message. `FindParent` is the
  imperative timeline scan with its early `break`. `FirstParentLink` is the
  function that specifies it.
- `validation.dfy` (`Validation`): `validateIssueHierarchy` as a pure function
  from an issue and an optional parent snapshot to a `Verdict`
  `{valid, errors, warnings}`, with one lemma per branch of its case split.
- `batch.dfy` (`Batch`): `validateIssues` as a method with a loop over the
  issue numbers. `CheckIssue` is the loop body (the `try`/`catch`). The method
  clears `allValid` and appends to `results`. It is proved against the
  function `Process`, one result per issue number. The valid and invalid
  counts are the `filter(...).length` functions `CountValid` and `CountInvalid`. A ghost log
  records every `getIssue` call, so the model can state when a parent fetch
  happens.
- `scenarios.dfy` (`Scenarios`): two whole runs against fixed service states.

Messages keep only the facts they carry (issue numbers, levels, the parent's
labels, the failed fetch's number and reason). Running the validation twice on
the same service state gives the same results, because each result of
`ValidateIssues` is `Process` of its issue number, a function of the service state.

Details of the script that the model follows:

- Labels are an ordered list. The level is taken from the first label in
  list order that is a key of the rule table (line 114).
- A parent snapshot is missing from a validator call only when the item has no
  parent. A failed parent fetch throws, and the whole item is then recorded as
  invalid (lines 190-191, 211-219). So in a run, the validator's branch that
  skips the parent label check (line 138) is never taken, and an open item with
  a parent is valid exactly when its fetched parent carries the required label
  (`SnapshotAlwaysSupplied`).
- `theme` is in the standalone list, but it can never be what suppresses the
  warning. An issue carrying `theme` already has a level (`ThemeNeverExempts`).
- A parent link also needs a `source.issue` object (line 83), besides the
  `connected` event name and the subject type `issue`.
- Parent number `0` is falsy in JavaScript, so it counts as "no parent" at
  lines 129, 150 and 190 (`HasParent`).

## Model

| member | source | states |
|---|---|---|
| `Hierarchy.LevelNamed` | scripts/validate-issue-hierarchy.js:26-31 | a label is found among the table's keys exactly when it is the name of some level, and the level found carries that name |
| `Hierarchy.RequiredParent` | scripts/validate-issue-hierarchy.js:26-31 | only the theme level has no required parent |
| `Hierarchy.RuleTableIsChain` | scripts/validate-issue-hierarchy.js:26-31 | the table is the chain theme ← user-story ← task ← sub-task: each level below the root requires the level just above it |
| `Hierarchy.NameIsKey` | scripts/validate-issue-hierarchy.js:26-31 | each level's label is a table key that leads back to that level, so the unused `label` field agrees with the key |
| `Hierarchy.FindLevel` | scripts/validate-issue-hierarchy.js:114 | there is no level exactly when no label is a table key; otherwise the level is named by a label before which no label is a key |
| `Hierarchy.FirstHierarchyLabelUnique` | scripts/validate-issue-hierarchy.js:114 | the first table key in a label list, and so the level, is unique |
| `Hierarchy.FindLevelOfExtension` | scripts/validate-issue-hierarchy.js:114 | appending labels after a hierarchy label never changes the level |
| `Hierarchy.StandaloneLabelsMeetTableOnlyAtTheme` | scripts/validate-issue-hierarchy.js:34 | of the five standalone labels `STANDALONE_LABELS`, `theme` is the only one that is also a key of the rule table |
| `Hierarchy.HasStandaloneLabel` | scripts/validate-issue-hierarchy.js:118 | the in-order `some` scan holds exactly when some label of the list is a standalone label |
| `Hierarchy.ThemeNeverExempts` | scripts/validate-issue-hierarchy.js:114-123 | when no label has a level, a standalone label is present exactly when a standalone label other than `theme` is present |
| `Issues.HasParent` | scripts/validate-issue-hierarchy.js:129 | (definition) the JavaScript truthiness of `issue.parent` used at lines 129, 150 and 190: a parent is present when it is set and is not issue number 0 |
| `Issues.IsParentLink` | scripts/validate-issue-hierarchy.js:83-87 | (definition) an event is a parent link when its `event` is `connected`, it has a `source.issue`, and its `subject.type` is `issue` |
| `Issues.FirstParentLink` | scripts/validate-issue-hierarchy.js:81-92 | (definition) the source of the first parent link of the timeline, or none; characterised by `Issues.FirstParentLinkIsFirstMatch` |
| `Issues.LabelNames` | scripts/validate-issue-hierarchy.js:97 | `labels.map(l => l.name)`: as many names as label objects, each the name of the label object at the same position |
| `Issues.FirstParentLinkIsFirstMatch` | scripts/validate-issue-hierarchy.js:81-92 | the resolved parent is absent exactly when no event is a `connected` event with a source issue and an issue subject; otherwise it is the source of the first such event |
| `Issues.LaterLinksIgnored` | scripts/validate-issue-hierarchy.js:81-92 | once the timeline holds a parent link, appending events (a relink) never changes the resolved parent |
| `Issues.NonIssueSubjectSkipped` | scripts/validate-issue-hierarchy.js:83-90 | a `connected` event whose subject is not an issue does not stop the scan |
| `Issues.FindParent` | scripts/validate-issue-hierarchy.js:81-92 | the loop with `break` returns the first-match parent `FirstParentLink(timeline)` |
| `Issues.FetchIssue` | scripts/validate-issue-hierarchy.js:73-104 | the fetch fails exactly when the issue or the timeline request fails, the failure names the requested number and carries the first failing request's message (the issue request's if it failed, else the timeline request's), and a fetched item has the service's number, state and label names in order, with the first-match parent |
| `Issues.GetIssue` | scripts/validate-issue-hierarchy.js:73-104 | the two requests plus the scan yield exactly `FetchIssue` |
| `Validation.ValidateIssueHierarchy` | scripts/validate-issue-hierarchy.js:109-158 | on every return path the verdict is valid exactly when there is no error; it has at most one error and at most one warning, and never both |
| `Validation.NoHierarchyLabelVerdict` | scripts/validate-issue-hierarchy.js:114-123 | with no hierarchy label, the verdict is valid with no errors, and it has exactly one warning (no hierarchy label) exactly when no label is a standalone label |
| `Validation.MissingParentVerdict` | scripts/validate-issue-hierarchy.js:128-135 | a user story, task or sub-task without a parent is invalid, with exactly the one error naming its level and the required parent level, and no warning |
| `Validation.ParentLabelVerdict` | scripts/validate-issue-hierarchy.js:137-147 | a user story, task or sub-task with a parent is invalid exactly when a snapshot is supplied and lacks the required label; the only error then cites the parent's number and labels; otherwise there are no errors and no warnings |
| `Validation.ThemeVerdict` | scripts/validate-issue-hierarchy.js:148-157 | a theme is valid with no errors, and has exactly one warning, naming its parent, exactly when it has a parent |
| `Validation.LaterLabelsIgnored` | scripts/validate-issue-hierarchy.js:114-125 | once a label list holds a hierarchy label, labels appended after it never change the verdict |
| `Batch.FailedEntry` | scripts/validate-issue-hierarchy.js:211-219 | the catch's result: only the requested number as the issue, invalid, the fetch failure as its only error, no warning |
| `Batch.Process` | scripts/validate-issue-hierarchy.js:177-220 | a result without a fetched issue carries the requested number and is invalid with one error and no warning; it arises exactly when the issue fetch fails or an open issue's parent fetch fails; a fetched issue in the result is the one `getIssue` returns |
| `Batch.CountValid` | scripts/validate-issue-hierarchy.js:228 | `results.filter(r => r.valid).length` is at most the number of results, and equals it only when every result is valid |
| `Batch.CountInvalid` | scripts/validate-issue-hierarchy.js:229 | `results.filter(r => !r.valid).length` is at most the number of results, and is 0 only when every result is valid |
| `Batch.CountsPartition` | scripts/validate-issue-hierarchy.js:228-229 | valid count plus invalid count is the number of results; the invalid count is 0, and the valid count is the number of results, exactly when every result is valid |
| `Batch.CheckIssue` | scripts/validate-issue-hierarchy.js:177-220 | the loop body records `Process(remote, n)` and calls `getIssue` exactly on `Requests(remote, n)` |
| `Batch.ValidateIssues` | scripts/validate-issue-hierarchy.js:173-229 | one result per input number, in input order, each `Process` of its number; `allValid` is the conjunction of the results' validity; the counts add up to the number of ids and the invalid count is 0 exactly when `allValid`; the `getIssue` calls are `RequestLog` |
| `Batch.ProcessWellFormed` | scripts/validate-issue-hierarchy.js:184-219 | every recorded result is valid exactly when it has no error, and has at most one error |
| `Batch.ClosedEntry` | scripts/validate-issue-hierarchy.js:181-186 | a closed issue is recorded as valid with no errors and exactly the "closed" warning, and its parent is never fetched |
| `Batch.IssueFetchFailureEntry` | scripts/validate-issue-hierarchy.js:211-219 | a failed issue or timeline request is recorded as invalid under the requested number, with the failure as its only error and no warning |
| `Batch.ParentFetchFailureEntry` | scripts/validate-issue-hierarchy.js:188-192 | a failed parent fetch makes the item itself invalid, with the parent's failure as its only error and no warning; it is not treated as "no parent" |
| `Batch.SnapshotAlwaysSupplied` | scripts/validate-issue-hierarchy.js:188-195 | in a run, an open user story, task or sub-task with a parent whose fetch succeeds is valid exactly when that parent carries the required parent label; the missing-snapshot skip never applies |
| `Batch.RequestLogLength` | scripts/validate-issue-hierarchy.js:176-192 | a run makes at least one and at most two `getIssue` calls per issue number |
| `Scenarios.MixedBatchFails` | scripts/validate-issue-hierarchy.js:176-229 | an open parentless sub-task plus a closed issue: one "must be a sub-issue of a task" error, one "closed" warning, the run fails with one valid and one invalid result, and only the two ids are fetched |
| `Scenarios.StoryUnderThemePasses` | scripts/validate-issue-hierarchy.js:81-199 | a user story whose timeline skips a pull-request link and ignores a later relink resolves its theme parent; the run passes with no errors and no warnings |

## Left out

- `githubRequest` (HTTPS transport, headers, status handling, `JSON.parse`) is not modelled. The service is the `Remote` oracle, and each request yields decoded data or an error message.
- Async/await sequencing is not modelled. Each awaited request is one oracle lookup, made in the source's order.
- Malformed service answers are not modelled: missing `labels`, a non-array timeline, or missing fields that would throw inside `getIssue`. Answers are typed.
- Reading `GITHUB_TOKEN` and `GITHUB_REPOSITORY` and the missing-token exit are not modelled. They are process-wide configuration and I/O.
- Console output, the summary banner and the remediation text are not modelled. They only report.
- `process.exit` and the exit code are not modelled. The run's outcome is `report.allValid` (exit 0 exactly when it holds).
- Command-line parsing (`parseInt`, `isNaN` filtering, the usage error) is not modelled. It is JavaScript library behaviour at the process boundary, and `ValidateIssues` takes the already parsed numbers.
- The English wording of messages is not modelled. Each `Message` keeps only the facts its text carries.
- The issue's title is carried through `getIssue` but is never checked.
- `Remote` is one fixed state of the service for the whole run, so a number requested twice in one run always gets the same answer. This happens for a repeated number, or for a number that is also another issue's parent. Answers that change between requests in one run, such as a transient failure, are not modelled. `ValidateIssues` relates each result to `Process` of its number on this basis.
