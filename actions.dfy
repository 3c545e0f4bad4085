/**
  The two actions the pipeline hands matching notifications to: printing a
  notification with its state (the `list` command) and unsubscribing from its
  thread (the `unsubscribe` command). Each action returns the events it
  produced and the error that stopped it, if any.
*/
module Actions {
  import opened Wrappers
  import opened Notifications
  import opened Resolver

  datatype Action = ListAction | UnsubscribeAction

  // ---------------------------------------------------------------------------
  // List action
  // ---------------------------------------------------------------------------

  /** What printing `n` does: the state shown is the state filter when one is set, the resolved state otherwise. */
  function PrintOutcome(remote: Remote, f: Filters, n: Notification): (o: Outcome)
    // with a state filter: no fetch, and the filter is what is shown
    ensures f.subjectState != "" ==> o == Outcome([PrintedLine(n.subject.title, f.subjectState)], None)
    // without one: the resolver's fetch comes first, then either its state is shown or its error is returned
    ensures f.subjectState == "" ==>
              var r := ResolveSubjectState(remote.detail, n);
              && (o.err.None? <==> r.Ok?)
              && (r.Ok? ==> o.trace == FetchEvents(n) + [PrintedLine(n.subject.title, r.value)])
              && (r.Fail? ==> o.trace == FetchEvents(n) && o.err == Some(r.error))
    ensures forall i :: 0 <= i < |o.trace| ==> !o.trace[i].Invoke?
  {
    if f.subjectState != "" then
      Outcome([PrintedLine(n.subject.title, f.subjectState)], None)
    else
      match ResolveSubjectState(remote.detail, n)
      case Fail(e) => Outcome(FetchEvents(n), Some(e))
      case Ok(state) => Outcome(FetchEvents(n) + [PrintedLine(n.subject.title, state)], None)
  }

  // ---------------------------------------------------------------------------
  // Unsubscribe action
  // ---------------------------------------------------------------------------

  /**
    What unsubscribing from `n` does after the history `h`: an unread thread is
    skipped unless forced, and then marked read first; the subscription is
    deleted, and a confirmation line follows a successful delete.
  */
  function UnsubscribeOutcome(remote: Remote, f: Filters, h: seq<Event>, n: Notification): (o: Outcome)
    ensures n.unread && !f.unsubscribeUnread ==> o == Outcome([], None)
    ensures forall i :: 0 <= i < |o.trace| ==> !o.trace[i].Invoke? && !o.trace[i].GetObject?
  {
    if n.unread && !f.unsubscribeUnread then
      Outcome([], None)
    else
      var marked := if n.unread then [MarkThreadRead(n.id, remote.markThreadRead(h, n.id))] else [];
      if n.unread && !remote.markThreadRead(h, n.id) then
        Outcome(marked, Some(MarkReadError(n.id)))
      else if !remote.deleteThreadSubscription(h + marked, n.id) then
        Outcome(marked + [DeleteThreadSubscription(n.id, false)], Some(UnsubscribeError(n.id)))
      else
        Outcome(marked + [DeleteThreadSubscription(n.id, true),
                          UnsubscribedLine(n.subject.title, n.id, n.reason, n.subject.url)], None)
  }

  method Unsubscribe(remote: Remote, f: Filters, h: seq<Event>, n: Notification) returns (events: seq<Event>, err: Option<Error>)
    ensures Outcome(events, err) == UnsubscribeOutcome(remote, f, h, n)
  {
    events := [];
    if n.unread {
      if !f.unsubscribeUnread {
        return [], None;
      }
      var ok := remote.markThreadRead(h, n.id);
      events := events + [MarkThreadRead(n.id, ok)];
      if !ok {
        return events, Some(MarkReadError(n.id));
      }
    }
    assert events == if n.unread then [MarkThreadRead(n.id, remote.markThreadRead(h, n.id))] else [];
    var ok := remote.deleteThreadSubscription(h + events, n.id);
    events := events + [DeleteThreadSubscription(n.id, ok)];
    if !ok {
      return events, Some(UnsubscribeError(n.id));
    }
    events := events + [UnsubscribedLine(n.subject.title, n.id, n.reason, n.subject.url)];
    err := None;
  }

  /** The events an action produces for `n` after the history `h`. */
  function ActionOutcome(remote: Remote, f: Filters, action: Action, h: seq<Event>, n: Notification): (o: Outcome)
    ensures forall i :: 0 <= i < |o.trace| ==> !o.trace[i].Invoke?
  {
    match action
    case ListAction => PrintOutcome(remote, f, n)
    case UnsubscribeAction => UnsubscribeOutcome(remote, f, h, n)
  }

  // ---------------------------------------------------------------------------
  // The unsubscribe lifecycle of one thread, as an independent state machine:
  //   unread, not forced:  Skipped
  //   unread, forced:      AwaitingMarkRead -> AwaitingDelete -> Deleted -> Reported
  //   read:                AwaitingDelete -> Deleted -> Reported
  // where any failed remote call leads to Aborted.
  // ---------------------------------------------------------------------------

  datatype Phase = AwaitingMarkRead | AwaitingDelete | Deleted | Skipped | Reported | Aborted

  predicate Terminal(p: Phase)
  {
    p.Skipped? || p.Reported? || p.Aborted?
  }

  function InitialPhase(n: Notification, forced: bool): Phase
  {
    if !n.unread then AwaitingDelete
    else if forced then AwaitingMarkRead
    else Skipped
  }

  /** The phase reached from `p` by event `e` for thread `n`; None when `e` is not allowed in `p`. */
  function Next(p: Phase, n: Notification, e: Event): Option<Phase>
  {
    match e
    case MarkThreadRead(thread, ok) =>
      if p.AwaitingMarkRead? && thread == n.id then Some(if ok then AwaitingDelete else Aborted) else None
    case DeleteThreadSubscription(thread, ok) =>
      if p.AwaitingDelete? && thread == n.id then Some(if ok then Deleted else Aborted) else None
    case UnsubscribedLine(title, thread, reason, url) =>
      if p.Deleted? && title == n.subject.title && thread == n.id && reason == n.reason && url == n.subject.url
      then Some(Reported) else None
    case _ => None
  }

  /** The phase reached from `p` by the events `es`, if each of them is allowed. */
  function Follow(p: Phase, n: Notification, es: seq<Event>): Option<Phase>
    decreases |es|
  {
    if es == [] then Some(p)
    else
      match Next(p, n, es[0])
      case None => None
      case Some(q) => Follow(q, n, es[1..])
  }

  /**
    Unsubscribing is a complete run of the lifecycle: it ends in a terminal
    phase, it ends Aborted exactly when it returns an error, and every recorded
    answer is the one the remote service gave at that point of the history.
  */
  lemma UnsubscribeFollowsLifecycle(remote: Remote, f: Filters, h: seq<Event>, n: Notification)
    ensures var o := UnsubscribeOutcome(remote, f, h, n);
            var end := Follow(InitialPhase(n, f.unsubscribeUnread), n, o.trace);
            && end.Some? && Terminal(end.value)
            && (o.err.None? <==> !end.value.Aborted?)
            && (end.value.Skipped? <==> o.trace == [])
    // the error names the call that failed: a failed mark-read or a failed delete
    ensures var o := UnsubscribeOutcome(remote, f, h, n);
            o.err.Some? ==>
              && |o.trace| >= 1
              && o.err == Some(if o.trace[|o.trace| - 1].MarkThreadRead? then MarkReadError(n.id) else UnsubscribeError(n.id))
    ensures var o := UnsubscribeOutcome(remote, f, h, n);
            forall i :: 0 <= i < |o.trace| ==>
              (o.trace[i].MarkThreadRead? ==> o.trace[i].ok == remote.markThreadRead(h + o.trace[..i], n.id)) &&
              (o.trace[i].DeleteThreadSubscription? ==> o.trace[i].ok == remote.deleteThreadSubscription(h + o.trace[..i], n.id))
  {
    var o := UnsubscribeOutcome(remote, f, h, n);
    var p0 := InitialPhase(n, f.unsubscribeUnread);
    if n.unread && !f.unsubscribeUnread {
    } else if n.unread && !remote.markThreadRead(h, n.id) {
      assert Follow(p0, n, o.trace) == Follow(Aborted, n, []);
      assert h + o.trace[..0] == h;
    } else {
      var marked := if n.unread then [MarkThreadRead(n.id, true)] else [];
      var p1 := Follow(p0, n, marked);
      assert p1 == Some(AwaitingDelete) by {
        if n.unread {
          assert Follow(p0, n, marked) == Follow(AwaitingDelete, n, []);
        }
      }
      FollowAppend(p0, n, marked, o.trace[|marked|..]);
      assert o.trace == marked + o.trace[|marked|..];
      if !remote.deleteThreadSubscription(h + marked, n.id) {
        assert Follow(AwaitingDelete, n, [DeleteThreadSubscription(n.id, false)]) == Some(Aborted);
      } else {
        var rest := [DeleteThreadSubscription(n.id, true), UnsubscribedLine(n.subject.title, n.id, n.reason, n.subject.url)];
        assert rest[1..] == [rest[1]];
        assert Follow(AwaitingDelete, n, rest) == Follow(Deleted, n, rest[1..]);
        assert Follow(Deleted, n, rest[1..]) == Some(Reported);
      }
      assert o.trace[..|marked|] == marked;
      assert h + o.trace[..|marked|] == h + marked;
      if n.unread {
        assert h + o.trace[..0] == h;
      }
    }
  }

  lemma {:induction false} FollowAppend(p: Phase, n: Notification, a: seq<Event>, b: seq<Event>)
    ensures Follow(p, n, a + b) == match Follow(p, n, a) case None => None case Some(q) => Follow(q, n, b)
    decreases |a|
  {
    if a == [] {
      assert a + b == b;
    } else {
      assert (a + b)[0] == a[0];
      assert (a + b)[1..] == a[1..] + b;
      match Next(p, n, a[0])
      case None =>
      case Some(q) => FollowAppend(q, n, a[1..], b);
    }
  }

  /** A failed mark-read ends the action: the subscription is never deleted and nothing is printed. */
  lemma MarkReadFailureStopsBeforeDelete(remote: Remote, f: Filters, h: seq<Event>, n: Notification)
    requires n.unread && f.unsubscribeUnread && !remote.markThreadRead(h, n.id)
    ensures UnsubscribeOutcome(remote, f, h, n) == Outcome([MarkThreadRead(n.id, false)], Some(MarkReadError(n.id)))
  {
  }

  /**
    A forced unread thread is marked read and then its subscription deleted, in
    that order; a failed delete is returned as UnsubscribeError, a successful
    one is reported.
  */
  lemma ForcedUnreadMarksThenDeletes(remote: Remote, f: Filters, h: seq<Event>, n: Notification)
    requires n.unread && f.unsubscribeUnread && remote.markThreadRead(h, n.id)
    ensures var o := UnsubscribeOutcome(remote, f, h, n);
            var ok := remote.deleteThreadSubscription(h + [MarkThreadRead(n.id, true)], n.id);
            o == if ok then Outcome([MarkThreadRead(n.id, true), DeleteThreadSubscription(n.id, true),
                                     UnsubscribedLine(n.subject.title, n.id, n.reason, n.subject.url)], None)
                 else Outcome([MarkThreadRead(n.id, true), DeleteThreadSubscription(n.id, false)], Some(UnsubscribeError(n.id)))
  {
  }

  /**
    A read thread gets exactly one delete call; its failure is returned, never
    masked, so unsubscribing twice reports whatever the second delete answers.
  */
  lemma ReadThreadOnlyDeletes(remote: Remote, f: Filters, h: seq<Event>, n: Notification)
    requires !n.unread
    ensures var o := UnsubscribeOutcome(remote, f, h, n);
            o == if remote.deleteThreadSubscription(h, n.id)
                 then Outcome([DeleteThreadSubscription(n.id, true),
                               UnsubscribedLine(n.subject.title, n.id, n.reason, n.subject.url)], None)
                 else Outcome([DeleteThreadSubscription(n.id, false)], Some(UnsubscribeError(n.id)))
  {
    assert h + [] == h;
  }
}
