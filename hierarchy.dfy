/**
 * The fixed hierarchy rule table: the four levels, the label that marks each
 * level, the level each one must be a sub-issue of, and the labels that exempt
 * an issue without a hierarchy label from the "no hierarchy label" warning.
 */
module Hierarchy {
  import opened Wrappers

  /** The four hierarchy levels, root first. */
  datatype Level = Theme | UserStory | Task | SubTask

  /** The levels in hierarchy order, root first. */
  const Levels: seq<Level> := [Theme, UserStory, Task, SubTask]

  /** The label marking an issue as being at `level`; it is also the level's key in the rule table. */
  function Name(level: Level): string
  {
    match level
    case Theme => "theme"
    case UserStory => "user-story"
    case Task => "task"
    case SubTask => "sub-task"
  }

  /** Looks `name` up among the keys of the rule table. */
  function LevelNamed(name: string): (r: Option<Level>)
    ensures r.Some? ==> Name(r.value) == name
    ensures r.None? <==> forall level: Level :: Name(level) != name
  {
    if name == "theme" then Some(Theme)
    else if name == "user-story" then Some(UserStory)
    else if name == "task" then Some(Task)
    else if name == "sub-task" then Some(SubTask)
    else None
  }

  /** Whether `name` is a key of the rule table. */
  predicate IsHierarchyLabel(name: string)
  {
    LevelNamed(name).Some?
  }

  /** The rule table: the level an issue at `level` must be a sub-issue of (none for the root). */
  function RequiredParent(level: Level): (r: Option<Level>)
    ensures r.None? <==> level == Theme
  {
    match level
    case Theme => None
    case UserStory => Some(Theme)
    case Task => Some(UserStory)
    case SubTask => Some(Task)
  }

  /** The rule table is the chain Theme, User Story, Task, Sub-Task: each level below the root must sit under the one before it. */
  lemma RuleTableIsChain()
    ensures RequiredParent(Levels[0]).None?
    ensures forall i :: 1 <= i < |Levels| ==> RequiredParent(Levels[i]) == Some(Levels[i - 1])
  {
  }

  /** Each level's label is a key of the rule table that leads back to that level. */
  lemma NameIsKey(level: Level)
    ensures LevelNamed(Name(level)) == Some(level)
  {
  }

  /** Labels whose presence suppresses the "no hierarchy label" warning. */
  const StandaloneLabels: seq<string> := ["bug", "defect", "security-issue", "feature-request", "theme"]

  /** Whether some label of `labels` is a standalone label. */
  function HasStandaloneLabel(labels: seq<string>): (b: bool)
    ensures b <==> exists i :: 0 <= i < |labels| && labels[i] in StandaloneLabels
  {
    if labels == [] then false
    else if labels[0] in StandaloneLabels then true
    else
      var rest := HasStandaloneLabel(labels[1..]);
      assert forall i :: 0 <= i < |labels| - 1 ==> labels[1..][i] == labels[i + 1];
      assert rest ==> exists i :: 0 <= i < |labels| - 1 && labels[1..][i] in StandaloneLabels;
      rest
  }

  /** Of the standalone labels, only `theme` is also a key of the rule table. */
  lemma StandaloneLabelsMeetTableOnlyAtTheme()
    ensures forall i :: 0 <= i < |StandaloneLabels| ==>
              (IsHierarchyLabel(StandaloneLabels[i]) <==> StandaloneLabels[i] == Name(Theme))
  {
  }

  /** `labels[i]` is the first label of `labels` that is a key of the rule table, and it names `level`. */
  ghost predicate FirstHierarchyLabelAt(labels: seq<string>, i: int, level: Level)
  {
    0 <= i < |labels| && labels[i] == Name(level) &&
    forall j :: 0 <= j < i ==> !IsHierarchyLabel(labels[j])
  }

  /**
   * The hierarchy level of an issue with these labels: the level of the first
   * label, in list order, that is a key of the rule table.
   */
  function FindLevel(labels: seq<string>): (r: Option<Level>)
    ensures r.None? <==> forall i :: 0 <= i < |labels| ==> !IsHierarchyLabel(labels[i])
    ensures r.Some? ==> exists i :: FirstHierarchyLabelAt(labels, i, r.value)
  {
    if labels == [] then None
    else if IsHierarchyLabel(labels[0]) then
      assert FirstHierarchyLabelAt(labels, 0, LevelNamed(labels[0]).value);
      LevelNamed(labels[0])
    else
      var r := FindLevel(labels[1..]);
      assert r.Some? ==> exists i :: FirstHierarchyLabelAt(labels[1..], i, r.value);
      assert forall i :: r.Some? && FirstHierarchyLabelAt(labels[1..], i, r.value)
               ==> FirstHierarchyLabelAt(labels, i + 1, r.value);
      r
  }

  /** Appending labels after a hierarchy label leaves the level unchanged. */
  lemma {:induction false} FindLevelOfExtension(labels: seq<string>, later: seq<string>)
    requires FindLevel(labels).Some?
    ensures FindLevel(labels + later) == FindLevel(labels)
  {
    assert labels != [];
    if !IsHierarchyLabel(labels[0]) {
      assert (labels + later)[1..] == labels[1..] + later;
      FindLevelOfExtension(labels[1..], later);
    }
  }

  /** The first hierarchy label determines the level uniquely. */
  lemma FirstHierarchyLabelUnique(labels: seq<string>, i: int, level: Level, i': int, level': Level)
    requires FirstHierarchyLabelAt(labels, i, level) && FirstHierarchyLabelAt(labels, i', level')
    ensures i == i' && level == level'
  {
  }

  /**
   * "theme" is in the standalone list, but it can never be what suppresses the
   * warning: an issue carrying "theme" has a hierarchy level, so the standalone
   * check is only reached when some other standalone label is present.
   */
  lemma ThemeNeverExempts(labels: seq<string>)
    requires FindLevel(labels).None?
    ensures HasStandaloneLabel(labels) <==>
            exists i :: 0 <= i < |labels| && labels[i] in StandaloneLabels && labels[i] != Name(Theme)
  {
    if HasStandaloneLabel(labels) {
      var i :| 0 <= i < |labels| && labels[i] in StandaloneLabels;
      assert !IsHierarchyLabel(labels[i]);
      assert labels[i] != Name(Theme);
    }
  }
}
