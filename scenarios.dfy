/** End-to-end runs of the two commands against small remote services. */
module Scenarios {
  import opened Wrappers
  import opened Notifications
  import opened Resolver
  import opened Actions
  import opened Pipeline

  const FixBug: Notification :=
    Notification("1", true, "author", "a/b", Subject("Fix bug", PullRequest, "https://api.github.com/repos/a/b/pulls/1"))

  const Crash: Notification :=
    Notification("2", true, "subscribed", "a/b", Subject("Crash on start", Issue, "https://api.github.com/repos/a/b/issues/2"))

  const Release: Notification :=
    Notification("3", false, "subscribed", "a/b", Subject("v1.0", "Commit", "https://api.github.com/repos/a/b/commits/3"))

  /** A service that lists `ns`, finds every subject in `detail` and accepts every mutation. */
  function Service(ns: seq<Notification>, detail: Detail): Remote
  {
    Remote(all => Some(ns), url => Some(detail), (h, id) => true, (h, id) => true)
  }

  /** Listing merged pull requests prints the merged one with the state "merged". */
  lemma ListMergedPullRequest()
    ensures Run(Service([FixBug], Detail("closed", true)), Filters("", PullRequest, Merged, false, false), ListAction, false)
         == Outcome([ListNotifications(false), GetObject(FixBug.subject.url), Invoke(FixBug),
                     PrintedLine("Fix bug", Merged)], None)
  {
    var remote := Service([FixBug], Detail("closed", true));
    var f := Filters("", PullRequest, Merged, false, false);
    var t := [ListNotifications(false)];
    assert [FixBug][1..] == [];
    assert ResolveSubjectState(remote.detail, FixBug) == Ok(Merged);
    var o := Step(remote, f, ListAction, FixBug, t);
    assert o == Outcome(t + [GetObject(FixBug.subject.url)] + [Invoke(FixBug)] + [PrintedLine("Fix bug", Merged)], None);
    assert Walk(remote, f, ListAction, [FixBug], t) == Walk(remote, f, ListAction, [], o.trace);
  }

  /** Unsubscribing from closed issues leaves an unread one alone unless forced. */
  lemma UnsubscribeUnreadIssueNotForced()
    ensures Run(Service([Crash], Detail("closed", false)), Filters("", Issue, DefaultUnsubscribeState, false, false), UnsubscribeAction, true)
         == Outcome([ListNotifications(true), GetObject(Crash.subject.url), Invoke(Crash)], None)
  {
    var remote := Service([Crash], Detail("closed", false));
    var f := Filters("", Issue, DefaultUnsubscribeState, false, false);
    var t := [ListNotifications(true)];
    assert [Crash][1..] == [];
    assert ResolveSubjectState(remote.detail, Crash) == Ok("closed");
    var o := Step(remote, f, UnsubscribeAction, Crash, t);
    assert o == Outcome(t + [GetObject(Crash.subject.url)] + [Invoke(Crash)] + [], None);
    assert Walk(remote, f, UnsubscribeAction, [Crash], t) == Walk(remote, f, UnsubscribeAction, [], o.trace);
  }

  /** Forced, the unread issue is marked read, then unsubscribed, then reported. */
  lemma UnsubscribeUnreadIssueForced()
    ensures Run(Service([Crash], Detail("closed", false)), Filters("", Issue, DefaultUnsubscribeState, false, true), UnsubscribeAction, true)
         == Outcome([ListNotifications(true), GetObject(Crash.subject.url), Invoke(Crash),
                     MarkThreadRead("2", true), DeleteThreadSubscription("2", true),
                     UnsubscribedLine("Crash on start", "2", "subscribed", Crash.subject.url)], None)
  {
    var remote := Service([Crash], Detail("closed", false));
    var f := Filters("", Issue, DefaultUnsubscribeState, false, true);
    var t := [ListNotifications(true)];
    assert [Crash][1..] == [];
    assert ResolveSubjectState(remote.detail, Crash) == Ok("closed");
    var t' := t + [GetObject(Crash.subject.url)] + [Invoke(Crash)];
    assert UnsubscribeOutcome(remote, f, t', Crash)
        == Outcome([MarkThreadRead("2", true), DeleteThreadSubscription("2", true),
                    UnsubscribedLine("Crash on start", "2", "subscribed", Crash.subject.url)], None);
    var o := Step(remote, f, UnsubscribeAction, Crash, t);
    assert o.err.None?;
    assert Walk(remote, f, UnsubscribeAction, [Crash], t) == Walk(remote, f, UnsubscribeAction, [], o.trace);
  }

  /** A commit notification under a state filter aborts the pass before any action runs. */
  lemma UnsupportedSubjectTypeAborts()
    ensures Run(Service([Release, Crash], Detail("closed", false)), Filters("", "Commit", DefaultUnsubscribeState, false, true), UnsubscribeAction, true)
         == Outcome([ListNotifications(true)], Some(UnsupportedSubjectType("Commit")))
  {
  }
}
