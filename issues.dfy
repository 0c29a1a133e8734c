/**
 * The repository client: an issue as the remote service returns it, its
 * timeline of events, and `getIssue`, which fetches an issue and resolves its
 * parent from the first "connected" event of its timeline.
 *
 * The remote service is an oracle (`Remote`): one function answers the issue
 * request, another the timeline request, each with the decoded JSON or the
 * message of the failed request.
 */
module Issues {
  import opened Wrappers

  /** An issue's state as the service reports it. */
  datatype State = Open | Closed

  /** A label object of the service; only its name is read. */
  datatype RawLabel = RawLabel(name: string)

  /** An issue as the service returns it. */
  datatype RawIssue = RawIssue(number: int, title: string, labels: seq<RawLabel>, state: State)

  /**
   * One timeline event: `kind` is its `event` field, `source` the number of
   * `source.issue` when that object is present, `subjectType` the
   * `subject.type` field when present.
   */
  datatype Event = Event(kind: string, source: Option<int>, subjectType: Option<string>)

  /** An issue as `getIssue` hands it to the validator: label names in service order and the resolved parent. */
  datatype Item = Item(number: int, title: string, labels: seq<string>, state: State, parent: Option<int>)

  /** A failed fetch of issue `number`, with the message of the failed request. */
  datatype FetchError = FetchError(number: int, reason: string)

  /** The remote service: the answer to the issue request and to the timeline request of each issue number. */
  datatype Remote = Remote(issues: int -> Result<RawIssue, string>, timelines: int -> Result<seq<Event>, string>)

  /** JavaScript truthiness of a resolved parent: absent and issue number 0 both count as "no parent". */
  predicate HasParent(parent: Option<int>)
  {
    parent.Some? && parent.value != 0
  }

  /** An event that makes its source issue this issue's parent: a "connected" event with a source issue whose subject is an issue. */
  predicate IsParentLink(event: Event)
  {
    event.kind == "connected" && event.source.Some? && event.subjectType == Some("issue")
  }

  /** The parent resolved from a timeline: the source of its first parent link, if any. */
  function FirstParentLink(timeline: seq<Event>): Option<int>
  {
    if timeline == [] then None
    else if IsParentLink(timeline[0]) then timeline[0].source
    else FirstParentLink(timeline[1..])
  }

  /**
   * The resolved parent is the source of the first parent link of the timeline,
   * and there is none exactly when no event is a parent link.
   */
  lemma {:induction false} FirstParentLinkIsFirstMatch(timeline: seq<Event>)
    ensures FirstParentLink(timeline).None? <==> forall i :: 0 <= i < |timeline| ==> !IsParentLink(timeline[i])
    ensures FirstParentLink(timeline).Some? ==>
              exists i :: 0 <= i < |timeline| && IsParentLink(timeline[i]) &&
                          timeline[i].source == FirstParentLink(timeline) &&
                          forall j :: 0 <= j < i ==> !IsParentLink(timeline[j])
  {
    if timeline != [] && !IsParentLink(timeline[0]) {
      var rest := timeline[1..];
      FirstParentLinkIsFirstMatch(rest);
      assert forall i :: 0 <= i < |rest| ==> rest[i] == timeline[i + 1];
      if FirstParentLink(rest).Some? {
        var i :| 0 <= i < |rest| && IsParentLink(rest[i]) && rest[i].source == FirstParentLink(rest) &&
                 forall j :: 0 <= j < i ==> !IsParentLink(rest[j]);
        assert forall j :: 0 <= j < i + 1 ==> !IsParentLink(timeline[j]) by {
          forall j | 0 <= j < i + 1 ensures !IsParentLink(timeline[j]) {
            if j > 0 { assert timeline[j] == rest[j - 1]; }
          }
        }
      } else {
        forall i | 0 <= i < |timeline| ensures !IsParentLink(timeline[i]) {
          if i > 0 { assert timeline[i] == rest[i - 1]; }
        }
      }
    }
  }

  /** Once a parent link has been seen, events after it do not change the resolved parent (first match wins). */
  lemma {:induction false} LaterLinksIgnored(earlier: seq<Event>, later: seq<Event>)
    requires FirstParentLink(earlier).Some?
    ensures FirstParentLink(earlier + later) == FirstParentLink(earlier)
  {
    assert earlier != [];
    if !IsParentLink(earlier[0]) {
      assert (earlier + later)[1..] == earlier[1..] + later;
      LaterLinksIgnored(earlier[1..], later);
    }
  }

  /** A "connected" event whose subject is not an issue does not stop the scan. */
  lemma NonIssueSubjectSkipped(event: Event, later: seq<Event>)
    requires event.kind == "connected" && event.subjectType != Some("issue")
    ensures FirstParentLink([event] + later) == FirstParentLink(later)
  {
    assert ([event] + later)[1..] == later;
  }

  /**
   * The parent scan of `getIssue`: walks the timeline in order and stops at the
   * first "connected" event with a source issue whose subject is an issue.
   */
  method FindParent(timeline: seq<Event>) returns (parentIssue: Option<int>)
    ensures parentIssue == FirstParentLink(timeline)
  {
    parentIssue := None;
    for i := 0 to |timeline|
      invariant parentIssue.None?
      invariant FirstParentLink(timeline) == FirstParentLink(timeline[i..])
    {
      var event := timeline[i];
      assert timeline[i..][1..] == timeline[i + 1..];
      if event.kind == "connected" && event.source.Some? {
        var connectedIssue := event.source.value;
        if event.subjectType == Some("issue") {
          parentIssue := Some(connectedIssue);
          break;
        }
      }
    }
  }

  /** The label names of a service issue, in service order. */
  function LabelNames(labels: seq<RawLabel>): (names: seq<string>)
    ensures |names| == |labels|
    ensures forall i :: 0 <= i < |labels| ==> names[i] == labels[i].name
  {
    seq(|labels|, i requires 0 <= i < |labels| => labels[i].name)
  }

  /**
   * What `getIssue` yields for an issue number: the issue with its resolved
   * parent, or the failure of the first of the two requests that failed.
   */
  function FetchIssue(remote: Remote, issueNumber: int): (r: Result<Item, FetchError>)
    ensures r.Err? <==> remote.issues(issueNumber).Err? || remote.timelines(issueNumber).Err?
    ensures r.Err? ==> r.error.number == issueNumber
    ensures r.Err? && remote.issues(issueNumber).Err? ==> r.error.reason == remote.issues(issueNumber).error
    ensures r.Err? && remote.issues(issueNumber).Ok? ==> r.error.reason == remote.timelines(issueNumber).error
    ensures r.Ok? ==> r.value.parent == FirstParentLink(remote.timelines(issueNumber).value)
    ensures r.Ok? ==> var raw := remote.issues(issueNumber).value;
                      r.value.number == raw.number && r.value.state == raw.state &&
                      |r.value.labels| == |raw.labels| &&
                      forall i :: 0 <= i < |raw.labels| ==> r.value.labels[i] == raw.labels[i].name
  {
    match remote.issues(issueNumber)
    case Err(reason) => Err(FetchError(issueNumber, reason))
    case Ok(issue) =>
      match remote.timelines(issueNumber)
      case Err(reason) => Err(FetchError(issueNumber, reason))
      case Ok(timeline) =>
        Ok(Item(issue.number, issue.title, LabelNames(issue.labels), issue.state, FirstParentLink(timeline)))
  }

  /** `getIssue`: requests the issue, then its timeline, then resolves the parent by scanning the timeline. */
  method GetIssue(remote: Remote, issueNumber: int) returns (r: Result<Item, FetchError>)
    ensures r == FetchIssue(remote, issueNumber)
  {
    var issue := remote.issues(issueNumber);
    if issue.Err? {
      return Err(FetchError(issueNumber, issue.error));
    }
    var timeline := remote.timelines(issueNumber);
    if timeline.Err? {
      return Err(FetchError(issueNumber, timeline.error));
    }
    var parentIssue := FindParent(timeline.value);
    r := Ok(Item(issue.value.number, issue.value.title, LabelNames(issue.value.labels), issue.value.state, parentIssue));
  }
}
