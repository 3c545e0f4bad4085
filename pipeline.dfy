/**
  The notification filter pipeline: list the notifications once, then, in
  listing order, reject those of another subject type, of another repository
  (when a repository filter is set) or in another state (when a state filter
  is set), and hand each survivor to the action. The first error from the
  resolver or the action ends the pass.
*/
module Pipeline {
  import opened Wrappers
  import opened Notifications
  import opened Resolver
  import opened Actions

  // ---------------------------------------------------------------------------
  // The filters
  // ---------------------------------------------------------------------------

  predicate TypeMatches(f: Filters, n: Notification)
  {
    f.subjectType == n.subject.kind
  }

  predicate RepositoryMatches(f: Filters, n: Notification)
  {
    f.repository == "" || f.repository == n.repository
  }

  /** The filters that need no remote call; without a repository filter only the type is compared. */
  predicate Prefilter(f: Filters, n: Notification)
    ensures Prefilter(f, n) ==> f.subjectType == n.subject.kind
    ensures f.repository == "" ==> (Prefilter(f, n) <==> f.subjectType == n.subject.kind)
    ensures f.repository != "" ==> (Prefilter(f, n) ==> n.repository == f.repository)
  {
    TypeMatches(f, n) && RepositoryMatches(f, n)
  }

  /** `n` passes every configured filter, its state being the one the resolver finds. */
  predicate Passes(remote: Remote, f: Filters, n: Notification)
    // a notification that passes a state filter has a supported type and is in exactly that state
    ensures Passes(remote, f, n) && f.subjectState != "" ==>
              Supported(n.subject.kind) && ResolveSubjectState(remote.detail, n).Ok? &&
              ResolveSubjectState(remote.detail, n).value == f.subjectState
    // without a state filter the resolver plays no part
    ensures f.subjectState == "" ==> (Passes(remote, f, n) <==> Prefilter(f, n))
    ensures Passes(remote, f, n) ==> Prefilter(f, n)
  {
    Prefilter(f, n) && (f.subjectState == "" || ResolveSubjectState(remote.detail, n) == Ok(f.subjectState))
  }

  /** The reference definition of what the pipeline acts on: the order-preserving filter of the listing. */
  function Selected(remote: Remote, f: Filters, ns: seq<Notification>): (r: seq<Notification>)
    ensures |r| <= |ns|
    ensures forall m :: m in r ==> m in ns && Passes(remote, f, m)
  {
    if ns == [] then []
    else (if Passes(remote, f, ns[0]) then [ns[0]] else []) + Selected(remote, f, ns[1..])
  }

  /** The listing without the notifications the type and repository filters reject. */
  function Prefiltered(f: Filters, ns: seq<Notification>): (r: seq<Notification>)
    ensures |r| <= |ns|
    ensures forall m :: m in r <==> m in ns && Prefilter(f, m)
  {
    if ns == [] then []
    else (if Prefilter(f, ns[0]) then [ns[0]] else []) + Prefiltered(f, ns[1..])
  }

  // ---------------------------------------------------------------------------
  // The specification of one pass
  // ---------------------------------------------------------------------------

  /** Handing `n` to the action after the trace `t`. */
  function Act(remote: Remote, f: Filters, action: Action, n: Notification, t: seq<Event>): (o: Outcome)
    ensures t + [Invoke(n)] <= o.trace
  {
    var t' := t + [Invoke(n)];
    var a := ActionOutcome(remote, f, action, t', n);
    Outcome(t' + a.trace, a.err)
  }

  /** Processing one notification of the listing after the trace `t`. */
  function Step(remote: Remote, f: Filters, action: Action, n: Notification, t: seq<Event>): (o: Outcome)
    ensures t <= o.trace
  {
    if !TypeMatches(f, n) then Outcome(t, None)
    else if f.repository != "" && f.repository != n.repository then Outcome(t, None)
    else if f.subjectState != "" then
      var t' := t + FetchEvents(n);
      match ResolveSubjectState(remote.detail, n)
      case Fail(e) => Outcome(t', Some(e))
      case Ok(state) => if state != f.subjectState then Outcome(t', None) else Act(remote, f, action, n, t')
    else
      Act(remote, f, action, n, t)
  }

  /** Processing the notifications `ns` in order after the trace `t`, stopping at the first error. */
  function Walk(remote: Remote, f: Filters, action: Action, ns: seq<Notification>, t: seq<Event>): (o: Outcome)
    ensures t <= o.trace
    decreases |ns|
  {
    if ns == [] then Outcome(t, None)
    else
      var o := Step(remote, f, action, ns[0], t);
      if o.err.Some? then o else Walk(remote, f, action, ns[1..], o.trace)
  }

  /** One pass: a single listing request, then the walk over what it returned. */
  function Run(remote: Remote, f: Filters, action: Action, all: bool): (o: Outcome)
    ensures |o.trace| >= 1 && o.trace[0] == ListNotifications(all)
    // a failed listing is reported before any action runs
    ensures remote.listing(all).None? ==> o.err == Some(ListingFetchError) && Invoked(o.trace) == []
  {
    var t := [ListNotifications(all)];
    match remote.listing(all)
    case None => Outcome(t, Some(ListingFetchError))
    case Some(ns) => Walk(remote, f, action, ns, t)
  }

  // ---------------------------------------------------------------------------
  // The pipeline and the two commands
  // ---------------------------------------------------------------------------

  method ForEachNotifications(remote: Remote, f: Filters, all: bool, action: Action)
    returns (trace: seq<Event>, err: Option<Error>)
    ensures Outcome(trace, err) == Run(remote, f, action, all)
  {
    trace := [ListNotifications(all)];
    var listing := remote.listing(all);
    if listing.None? {
      return trace, Some(ListingFetchError);
    }
    var notifications := listing.value;
    var i := 0;
    while i < |notifications|
      invariant 0 <= i <= |notifications|
      invariant Walk(remote, f, action, notifications[i..], trace) == Run(remote, f, action, all)
    {
      var notif := notifications[i];
      assert notifications[i..][0] == notif && notifications[i..][1..] == notifications[i + 1..];
      i := i + 1;
      if f.subjectType != notif.subject.kind {
        continue;
      }
      if f.repository != "" && f.repository != notif.repository {
        continue;
      }
      if f.subjectState != "" {
        trace := trace + FetchEvents(notif);
        var state := ResolveSubjectState(remote.detail, notif);
        if state.Fail? {
          return trace, Some(state.error);
        }
        if state.value != f.subjectState {
          continue;
        }
      }
      trace := trace + [Invoke(notif)];
      var events, e;
      match action {
        case ListAction =>
          var printed := PrintOutcome(remote, f, notif);
          events, e := printed.trace, printed.err;
        case UnsubscribeAction =>
          events, e := Unsubscribe(remote, f, trace, notif);
      }
      trace := trace + events;
      if e.Some? {
        return trace, e;
      }
    }
    err := None;
  }

  /** The `list` command: read notifications are listed only when asked for. */
  method RunList(remote: Remote, f: Filters) returns (trace: seq<Event>, err: Option<Error>)
    ensures Outcome(trace, err) == Run(remote, f, ListAction, f.listRead)
  {
    trace, err := ForEachNotifications(remote, f, f.listRead, ListAction);
  }

  /** The `unsubscribe` command: read and unread notifications are always listed. */
  method RunUnsubscribe(remote: Remote, f: Filters) returns (trace: seq<Event>, err: Option<Error>)
    ensures Outcome(trace, err) == Run(remote, f, UnsubscribeAction, true)
  {
    trace, err := ForEachNotifications(remote, f, true, UnsubscribeAction);
  }

  // ---------------------------------------------------------------------------
  // Properties of a pass
  // ---------------------------------------------------------------------------

  /** One step hands `n` to the action exactly when `n` passes every filter, whether or not the step fails. */
  lemma StepInvoked(remote: Remote, f: Filters, action: Action, n: Notification, t: seq<Event>)
    ensures Invoked(Step(remote, f, action, n, t).trace) == Invoked(t) + (if Passes(remote, f, n) then [n] else [])
  {
    var o := Step(remote, f, action, n, t);
    if !Prefilter(f, n) {
      assert o.trace == t;
    } else {
      var t' := if f.subjectState != "" then t + FetchEvents(n) else t;
      InvokedNone(FetchEvents(n));
      InvokedAppend(t, FetchEvents(n));
      assert Invoked(t') == Invoked(t);
      if Passes(remote, f, n) {
        var a := ActionOutcome(remote, f, action, t' + [Invoke(n)], n);
        assert o.trace == t' + [Invoke(n)] + a.trace;
        InvokedNone(a.trace);
        InvokedAppend(t' + [Invoke(n)], a.trace);
        InvokedAppend(t', [Invoke(n)]);
        assert Invoked([Invoke(n)]) == [n];
      } else {
        assert o.trace == t';
      }
    }
  }

  /**
    The processed prefix: a pass that stops does so right after some
    notification `ns[j - 1]`, returns that notification's error as it is, has
    acted on exactly the selected notifications of `ns[..j]`, and would have
    done exactly the same had the listing ended there. A pass that does not
    stop processes the whole listing.
  */
  lemma {:induction false} ProcessedPrefix(remote: Remote, f: Filters, action: Action, ns: seq<Notification>, t: seq<Event>)
    returns (j: nat)
    ensures j <= |ns|
    ensures Invoked(Walk(remote, f, action, ns, t).trace) == Invoked(t) + Selected(remote, f, ns[..j])
    ensures Walk(remote, f, action, ns, t) == Walk(remote, f, action, ns[..j], t)
    ensures Walk(remote, f, action, ns, t).err.None? ==> j == |ns|
    ensures Walk(remote, f, action, ns, t).err.Some? ==>
              (1 <= j && Walk(remote, f, action, ns[..j - 1], t).err.None? &&
               Walk(remote, f, action, ns, t) == Step(remote, f, action, ns[j - 1], Walk(remote, f, action, ns[..j - 1], t).trace))
    decreases |ns|
  {
    if ns == [] {
      j := 0;
      assert ns[..0] == [];
    } else {
      var o1 := Step(remote, f, action, ns[0], t);
      StepInvoked(remote, f, action, ns[0], t);
      SelectedPrefix(remote, f, ns, 0);
      if o1.err.Some? {
        j := 1;
        assert ns[..0] == [];
        WalkCons(remote, f, action, ns, 0, t);
      } else {
        var j' := ProcessedPrefix(remote, f, action, ns[1..], o1.trace);
        j := j' + 1;
        var w := Walk(remote, f, action, ns, t);
        var rest := Walk(remote, f, action, ns[1..], o1.trace);
        assert w == rest;
        WalkCons(remote, f, action, ns, j', t);
        assert Walk(remote, f, action, ns[..j], t) == Walk(remote, f, action, ns[1..][..j'], o1.trace);
        PrefixInvoked(remote, f, ns, j', Invoked(t), Invoked(o1.trace), Invoked(rest.trace));
        if w.err.Some? {
          WalkCons(remote, f, action, ns, j' - 1, t);
          assert ns[j - 1] == ns[1..][j' - 1];
        }
      }
    }
  }

  /** The selected notifications of a prefix, one more notification long. */
  lemma PrefixInvoked(remote: Remote, f: Filters, ns: seq<Notification>, k: nat,
                      before: seq<Notification>, mid: seq<Notification>, after: seq<Notification>)
    requires k < |ns|
    requires mid == before + (if Passes(remote, f, ns[0]) then [ns[0]] else [])
    requires after == mid + Selected(remote, f, ns[1..][..k])
    ensures after == before + Selected(remote, f, ns[..k + 1])
  {
    SelectedPrefix(remote, f, ns, k);
  }

  lemma SelectedPrefix(remote: Remote, f: Filters, ns: seq<Notification>, k: nat)
    requires k < |ns|
    ensures Selected(remote, f, ns[..k + 1]) ==
              (if Passes(remote, f, ns[0]) then [ns[0]] else []) + Selected(remote, f, ns[1..][..k])
  {
    assert ns[..k + 1][0] == ns[0];
    assert ns[..k + 1][1..] == ns[1..][..k];
  }

  lemma WalkCons(remote: Remote, f: Filters, action: Action, ns: seq<Notification>, k: nat, t: seq<Event>)
    requires k < |ns|
    ensures Walk(remote, f, action, ns[..k + 1], t) ==
              var o := Step(remote, f, action, ns[0], t);
              if o.err.Some? then o else Walk(remote, f, action, ns[1..][..k], o.trace)
  {
    assert ns[..k + 1][0] == ns[0];
    assert ns[..k + 1][1..] == ns[1..][..k];
  }

  /** A pass that ends without error acts on exactly the selected notifications, once each, in listing order. */
  lemma ActsOnSelected(remote: Remote, f: Filters, action: Action, ns: seq<Notification>, t: seq<Event>)
    ensures var o := Walk(remote, f, action, ns, t);
            o.err.None? ==> Invoked(o.trace) == Invoked(t) + Selected(remote, f, ns)
  {
    var j := ProcessedPrefix(remote, f, action, ns, t);
    assert ns[..|ns|] == ns;
  }

  /** Whatever happens, the action only ever sees notifications that pass every filter. */
  lemma OnlyPassingAreInvoked(remote: Remote, f: Filters, action: Action, ns: seq<Notification>, t: seq<Event>)
    ensures forall m :: m in Invoked(Walk(remote, f, action, ns, t).trace) ==> m in Invoked(t) || Passes(remote, f, m)
  {
    var j := ProcessedPrefix(remote, f, action, ns, t);
  }

  /** A pass splits at any point of the listing: after an error nothing later is looked at. */
  lemma {:induction false} WalkAppend(remote: Remote, f: Filters, action: Action, ns: seq<Notification>, rest: seq<Notification>, t: seq<Event>)
    ensures Walk(remote, f, action, ns + rest, t) ==
              var o := Walk(remote, f, action, ns, t);
              if o.err.Some? then o else Walk(remote, f, action, rest, o.trace)
    decreases |ns|
  {
    if ns == [] {
      assert ns + rest == rest;
    } else {
      assert (ns + rest)[0] == ns[0];
      assert (ns + rest)[1..] == ns[1..] + rest;
      var o1 := Step(remote, f, action, ns[0], t);
      if o1.err.None? {
        WalkAppend(remote, f, action, ns[1..], rest, o1.trace);
      }
    }
  }

  /** Notifications rejected by the type or repository filter are invisible: removing them changes nothing. */
  lemma {:induction false} RejectedAreInvisible(remote: Remote, f: Filters, action: Action, ns: seq<Notification>, t: seq<Event>)
    ensures Walk(remote, f, action, ns, t) == Walk(remote, f, action, Prefiltered(f, ns), t)
    decreases |ns|
  {
    if ns != [] {
      var pre := Prefiltered(f, ns);
      if Prefilter(f, ns[0]) {
        assert pre[0] == ns[0] && pre[1..] == Prefiltered(f, ns[1..]);
        var o1 := Step(remote, f, action, ns[0], t);
        if o1.err.None? {
          RejectedAreInvisible(remote, f, action, ns[1..], o1.trace);
        }
      } else {
        assert pre == Prefiltered(f, ns[1..]);
        RejectedAreInvisible(remote, f, action, ns[1..], t);
      }
    }
  }

  /** No subject detail is fetched in `s` from position `k` on. */
  predicate NoFetchFrom(s: seq<Event>, k: nat)
  {
    forall i :: k <= i < |s| ==> !s[i].GetObject?
  }

  /** Without a state filter, an unsubscribe pass never reads a subject's detail. */
  lemma {:induction false} UnsubscribeWithoutStateFilterNeverFetches(remote: Remote, f: Filters, ns: seq<Notification>, t: seq<Event>)
    requires f.subjectState == ""
    ensures NoFetchFrom(Walk(remote, f, UnsubscribeAction, ns, t).trace, |t|)
    decreases |ns|
  {
    if ns != [] {
      var o1 := Step(remote, f, UnsubscribeAction, ns[0], t);
      StepNeverFetches(remote, f, ns[0], t);
      var o := Walk(remote, f, UnsubscribeAction, ns, t);
      if o1.err.None? {
        var rest := Walk(remote, f, UnsubscribeAction, ns[1..], o1.trace);
        assert o == rest;
        UnsubscribeWithoutStateFilterNeverFetches(remote, f, ns[1..], o1.trace);
        assert |t| <= |o1.trace| <= |o.trace|;
        assert o.trace[..|o1.trace|] == o1.trace;
        forall i | |t| <= i < |o.trace|
          ensures !o.trace[i].GetObject?
        {
          if i < |o1.trace| {
            assert o.trace[i] == o.trace[..|o1.trace|][i] == o1.trace[i];
            assert !o1.trace[i].GetObject?;
          } else {
            assert NoFetchFrom(rest.trace, |o1.trace|);
            assert o.trace[i] == rest.trace[i];
          }
        }
      } else {
        assert o == o1;
      }
    }
  }

  /** Without a state filter, an unsubscribe step adds no detail fetch to the trace. */
  lemma StepNeverFetches(remote: Remote, f: Filters, n: Notification, t: seq<Event>)
    requires f.subjectState == ""
    ensures t <= Step(remote, f, UnsubscribeAction, n, t).trace
    ensures NoFetchFrom(Step(remote, f, UnsubscribeAction, n, t).trace, |t|)
  {
  }

  /**
    One list step, written out: a notification that passes the type and
    repository filters has its detail fetched at most once (exactly once when
    its type is PullRequest or Issue), by the pipeline when a state filter is
    set and by the action otherwise, and the state printed is always the
    resolved state.
  */
  lemma ListStep(remote: Remote, f: Filters, n: Notification, t: seq<Event>)
    requires Prefilter(f, n)
    ensures Step(remote, f, ListAction, n, t) ==
              match ResolveSubjectState(remote.detail, n)
              case Fail(e) =>
                if f.subjectState == "" then Outcome(t + [Invoke(n)] + FetchEvents(n), Some(e))
                else Outcome(t + FetchEvents(n), Some(e))
              case Ok(s) =>
                if f.subjectState == "" then Outcome(t + [Invoke(n)] + FetchEvents(n) + [PrintedLine(n.subject.title, s)], None)
                else if s == f.subjectState then Outcome(t + FetchEvents(n) + [Invoke(n), PrintedLine(n.subject.title, s)], None)
                else Outcome(t + FetchEvents(n), None)
  {
  }

  /** A merged pull request passes a state filter exactly when the filter is "merged". */
  lemma MergedPullRequestPasses(remote: Remote, f: Filters, n: Notification)
    requires Prefilter(f, n) && f.subjectState != ""
    requires n.subject.kind == PullRequest && remote.detail(n.subject.url).Some?
    requires remote.detail(n.subject.url).value.merged
    ensures Passes(remote, f, n) <==> f.subjectState == Merged
  {
  }

  /**
    With an unsupported subject type as the type filter and a state filter
    set, no action ever runs, and the pass fails with UnsupportedSubjectType
    exactly when some notification passes the type and repository filters.
  */
  lemma {:induction false} UnsupportedTypeAborts(remote: Remote, f: Filters, action: Action, ns: seq<Notification>, t: seq<Event>)
    requires !Supported(f.subjectType) && f.subjectState != ""
    ensures var o := Walk(remote, f, action, ns, t);
            && o.trace == t
            && (o.err.Some? <==> exists m :: m in ns && Prefilter(f, m))
            && (o.err.Some? ==> o.err == Some(UnsupportedSubjectType(f.subjectType)))
    decreases |ns|
  {
    if ns != [] {
      if !Prefilter(f, ns[0]) {
        UnsupportedTypeAborts(remote, f, action, ns[1..], t);
        assert forall m :: m in ns <==> m == ns[0] || m in ns[1..];
      }
    }
  }
}
