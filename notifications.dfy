/**
  The data the tool works on: notification threads as listed by the remote
  notification service, the filter configuration built from the command line,
  the error taxonomy, the remote service itself (as oracle functions), and the
  trace of remote calls and printed lines a run leaves behind.
*/
module Notifications {
  import opened Wrappers

  /** Subject type tags the resolver understands. */
  const PullRequest: string := "PullRequest"
  const Issue: string := "Issue"

  /** The state a merged pull request resolves to. */
  const Merged: string := "merged"

  /** Flag defaults of the command line: `--type`, `list --state`, `unsubscribe --state`. */
  const DefaultSubjectType: string := PullRequest
  const DefaultListState: string := ""
  const DefaultUnsubscribeState: string := "closed"

  datatype Subject = Subject(title: string, kind: string, url: string)

  /** One notification thread; `repository` is the owning repository's full name. */
  datatype Notification = Notification(
    id: string,
    unread: bool,
    reason: string,
    repository: string,
    subject: Subject)

  /**
    The filter configuration. An empty `repository` or `subjectState` means
    "any"; `subjectType` is always compared.
  */
  datatype Filters = Filters(
    repository: string,
    subjectType: string,
    subjectState: string,
    listRead: bool,
    unsubscribeUnread: bool)

  /** The part of a fetched pull request or issue the resolver reads. */
  datatype Detail = Detail(state: string, merged: bool)

  datatype Error =
    | ListingFetchError
    | DetailFetchError(subjectType: string)
    | UnsupportedSubjectType(subjectType: string)
    | MarkReadError(thread: string)
    | UnsubscribeError(thread: string)

  /**
    What a run does, in order: remote reads, the hand-over of a notification
    to the action, remote mutations with the answer the service gave, and
    printed lines.
  */
  datatype Event =
    | ListNotifications(all: bool)
    | GetObject(url: string)
    | Invoke(n: Notification)
    | MarkThreadRead(thread: string, ok: bool)
    | DeleteThreadSubscription(thread: string, ok: bool)
    | PrintedLine(title: string, state: string)
    | UnsubscribedLine(title: string, thread: string, reason: string, url: string)

  /**
    The remote notification service. Reads are fixed for the duration of a
    run; the answer to a mutation may depend on everything that happened
    before it (a second delete of the same subscription may fail).
  */
  datatype Remote = Remote(
    listing: bool -> Option<seq<Notification>>,
    detail: string -> Option<Detail>,
    markThreadRead: (seq<Event>, string) -> bool,
    deleteThreadSubscription: (seq<Event>, string) -> bool)

  /** The trace left by a computation and the error it stopped with, if any. */
  datatype Outcome = Outcome(trace: seq<Event>, err: Option<Error>)

  /** The notifications handed to an action, in the order of the trace. */
  function Invoked(t: seq<Event>): (r: seq<Notification>)
    ensures |r| <= |t|
    ensures forall m :: m in r ==> Invoke(m) in t
  {
    if t == [] then []
    else (if t[0].Invoke? then [t[0].n] else []) + Invoked(t[1..])
  }

  lemma {:induction false} InvokedAppend(a: seq<Event>, b: seq<Event>)
    ensures Invoked(a + b) == Invoked(a) + Invoked(b)
  {
    if a != [] {
      assert (a + b)[0] == a[0];
      assert (a + b)[1..] == a[1..] + b;
      InvokedAppend(a[1..], b);
    } else {
      assert a + b == b;
    }
  }

  lemma {:induction false} InvokedNone(s: seq<Event>)
    requires forall i :: 0 <= i < |s| ==> !s[i].Invoke?
    ensures Invoked(s) == []
  {
    if s != [] {
      InvokedNone(s[1..]);
    }
  }
}
