/**
 * The validator `validateIssueHierarchy`: a decision procedure that classifies
 * one issue, given its resolved parent snapshot (if fetched), as valid,
 * invalid with one error, or valid with a warning.
 *
 * Messages keep only the facts their text carries (issue numbers, levels and
 * labels); their English wording and the remediation hints are not modelled.
 */
module Validation {
  import opened Wrappers
  import opened Hierarchy
  import opened Issues

  /** The messages of a verdict or a batch result. */
  datatype Message =
      /** Warning: issue `number` has none of the four hierarchy labels. */
    | NoHierarchyLabel(number: int)
      /** Error: issue `number`, at `level`, has no parent but must be a sub-issue of a `required` issue. */
    | MustBeSubIssueOf(number: int, level: Level, required: Level)
      /** Error: issue `number`, at `level`, has parent `parentNumber`, whose labels lack `required`. */
    | WrongParentLabel(number: int, level: Level, parentNumber: int, required: Level, parentLabels: seq<string>)
      /** Warning: theme `number` should be standalone but has parent `parent`. */
    | ThemeHasParent(number: int, parent: int)
      /** Warning: the issue is closed and was not validated. */
    | IssueClosed
      /** Error: fetching an issue (the item or its parent) failed. */
    | FetchFailed(failure: FetchError)

  /** The outcome `{valid, errors, warnings}` of validating one issue. */
  datatype Verdict = Verdict(valid: bool, errors: seq<Message>, warnings: seq<Message>)

  /** Every verdict the validator returns is valid exactly when it has no error, and has at most one. */
  predicate WellFormed(v: Verdict)
  {
    (v.valid <==> v.errors == []) && |v.errors| <= 1
  }

  /**
   * `validateIssueHierarchy(issue, parentIssue)`; `parentIssue` is `None` when
   * no parent snapshot is supplied.
   */
  function ValidateIssueHierarchy(issue: Item, parentIssue: Option<Item>): (v: Verdict)
    ensures WellFormed(v) && |v.warnings| <= 1
    ensures v.errors != [] ==> v.warnings == []
  {
    match FindLevel(issue.labels)
    case None =>
      if !HasStandaloneLabel(issue.labels) then Verdict(true, [], [NoHierarchyLabel(issue.number)])
      else Verdict(true, [], [])
    case Some(level) =>
      match RequiredParent(level)
      case Some(required) =>
        if !HasParent(issue.parent) then
          Verdict(false, [MustBeSubIssueOf(issue.number, level, required)], [])
        else if parentIssue.Some? && Name(required) !in parentIssue.value.labels then
          Verdict(false, [WrongParentLabel(issue.number, level, parentIssue.value.number, required, parentIssue.value.labels)], [])
        else
          Verdict(true, [], [])
      case None =>
        if HasParent(issue.parent) then Verdict(true, [], [ThemeHasParent(issue.number, issue.parent.value)])
        else Verdict(true, [], [])
  }

  /**
   * No label is a key of the rule table: the verdict is valid without errors,
   * and it carries exactly one warning if and only if no label is a standalone label.
   */
  lemma NoHierarchyLabelVerdict(issue: Item, parentIssue: Option<Item>)
    requires forall i :: 0 <= i < |issue.labels| ==> !IsHierarchyLabel(issue.labels[i])
    ensures ValidateIssueHierarchy(issue, parentIssue).valid
    ensures ValidateIssueHierarchy(issue, parentIssue).errors == []
    ensures |ValidateIssueHierarchy(issue, parentIssue).warnings| == 1 <==>
            forall i :: 0 <= i < |issue.labels| ==> issue.labels[i] !in StandaloneLabels
    ensures |ValidateIssueHierarchy(issue, parentIssue).warnings| == 1 ==>
            ValidateIssueHierarchy(issue, parentIssue).warnings == [NoHierarchyLabel(issue.number)]
  {
  }

  /**
   * A user story, task or sub-task without a parent: invalid, with exactly one
   * error naming the required parent level, and no warning.
   */
  lemma MissingParentVerdict(issue: Item, parentIssue: Option<Item>, i: int, level: Level)
    requires FirstHierarchyLabelAt(issue.labels, i, level) && level != Theme
    requires !HasParent(issue.parent)
    ensures ValidateIssueHierarchy(issue, parentIssue) ==
            Verdict(false, [MustBeSubIssueOf(issue.number, level, RequiredParent(level).value)], [])
  {
  }

  /**
   * A user story, task or sub-task with a parent: invalid exactly when a parent
   * snapshot is supplied and lacks the required parent label, with one error
   * citing the parent's number and labels; otherwise valid with nothing to report.
   */
  lemma ParentLabelVerdict(issue: Item, parentIssue: Option<Item>, i: int, level: Level)
    requires FirstHierarchyLabelAt(issue.labels, i, level) && level != Theme
    requires HasParent(issue.parent)
    ensures var required := RequiredParent(level).value;
            var v := ValidateIssueHierarchy(issue, parentIssue);
            (v.valid <==> parentIssue.None? || Name(required) in parentIssue.value.labels) &&
            (v.valid ==> v.errors == [] && v.warnings == []) &&
            (!v.valid ==>
               v.warnings == [] &&
               v.errors == [WrongParentLabel(issue.number, level, parentIssue.value.number, required, parentIssue.value.labels)])
  {
  }

  /**
   * A theme is always valid without errors; it carries exactly one warning,
   * naming its parent, if and only if it has a parent.
   */
  lemma ThemeVerdict(issue: Item, parentIssue: Option<Item>, i: int)
    requires FirstHierarchyLabelAt(issue.labels, i, Theme)
    ensures ValidateIssueHierarchy(issue, parentIssue).valid
    ensures ValidateIssueHierarchy(issue, parentIssue).errors == []
    ensures |ValidateIssueHierarchy(issue, parentIssue).warnings| == 1 <==> HasParent(issue.parent)
    ensures HasParent(issue.parent) ==>
            ValidateIssueHierarchy(issue, parentIssue).warnings == [ThemeHasParent(issue.number, issue.parent.value)]
  {
  }

  /**
   * Only the first hierarchy label counts: labels after it, hierarchy labels
   * included, never change the verdict.
   */
  lemma LaterLabelsIgnored(issue: Item, parentIssue: Option<Item>, later: seq<string>)
    requires FindLevel(issue.labels).Some?
    ensures ValidateIssueHierarchy(issue.(labels := issue.labels + later), parentIssue) ==
            ValidateIssueHierarchy(issue, parentIssue)
  {
    FindLevelOfExtension(issue.labels, later);
  }
}
