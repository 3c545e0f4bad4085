/**
  The subject state resolver: maps a notification's subject to the state of
  its detail resource (a pull request or an issue), with a merged pull request
  reported as "merged".
*/
module Resolver {
  import opened Wrappers
  import opened Notifications

  /** The subject types whose detail resource the resolver knows how to read. */
  predicate Supported(kind: string)
  {
    kind == PullRequest || kind == Issue
  }

  /** The remote reads one resolution performs: one fetch of the detail, for a supported type only. */
  function FetchEvents(n: Notification): (r: seq<Event>)
    ensures |r| <= 1
    ensures forall i :: 0 <= i < |r| ==> r[i] == GetObject(n.subject.url)
    ensures r != [] <==> Supported(n.subject.kind)
  {
    if Supported(n.subject.kind) then [GetObject(n.subject.url)] else []
  }

  /**
    The resolved state of `n`'s subject, where `detail` answers the fetch of
    the subject's detail resource.
  */
  function ResolveSubjectState(detail: string -> Option<Detail>, n: Notification): (r: Result<string, Error>)
    // a state is resolved exactly for a supported type whose detail could be fetched
    ensures r.Ok? <==> Supported(n.subject.kind) && detail(n.subject.url).Some?
    ensures !Supported(n.subject.kind) ==> r == Fail(UnsupportedSubjectType(n.subject.kind))
    ensures Supported(n.subject.kind) && detail(n.subject.url).None? ==>
              r == Fail(DetailFetchError(n.subject.kind))
    // a merged pull request is "merged"; otherwise the detail's own state is reported
    ensures r.Ok? && n.subject.kind == PullRequest && detail(n.subject.url).value.merged ==> r.value == Merged
    ensures r.Ok? && !(n.subject.kind == PullRequest && detail(n.subject.url).value.merged) ==>
              r.value == detail(n.subject.url).value.state
  {
    var subject := n.subject;
    if subject.kind == PullRequest then
      match detail(subject.url)
      case None => Fail(DetailFetchError(PullRequest))
      case Some(pr) => Ok(if pr.merged then Merged else pr.state)
    else if subject.kind == Issue then
      match detail(subject.url)
      case None => Fail(DetailFetchError(Issue))
      case Some(issue) => Ok(issue.state)
    else
      Fail(UnsupportedSubjectType(subject.kind))
  }

  /** The merged flag of an issue's detail is never consulted: only its own state is reported. */
  lemma IssueIgnoresMergedFlag(detail: string -> Option<Detail>, other: string -> Option<Detail>, n: Notification)
    requires n.subject.kind == Issue
    requires detail(n.subject.url).Some? && other(n.subject.url).Some?
    requires detail(n.subject.url).value.state == other(n.subject.url).value.state
    ensures ResolveSubjectState(detail, n) == ResolveSubjectState(other, n)
  {
  }

  /** Only the subject's own detail resource matters to the resolver. */
  lemma ResolveReadsOnlyOwnDetail(detail: string -> Option<Detail>, other: string -> Option<Detail>, n: Notification)
    requires detail(n.subject.url) == other(n.subject.url)
    ensures ResolveSubjectState(detail, n) == ResolveSubjectState(other, n)
  {
  }
}
