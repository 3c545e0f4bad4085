# gh-notifications: the filter-and-act pipeline

`gh-notifications` is a command-line tool that lists GitHub notification
threads, or unsubscribes from them in bulk, after filtering them by subject
type (`PullRequest` or `Issue`), by repository and by subject state (`open`,
`closed`, `merged`). This project models its core, all of it in `main.go`:

- the filter pipeline `forEachNotifications`: list once, then walk the listing
  in order, reject by type, by repository and by resolved state, hand each
  survivor to an action, stop at the first error;
- the subject state resolver `resolveNotificationSubjectState`: a pull
  request's own state, or `merged` when its merged flag is set; an issue's
  own state; an error for any other subject type or a failed fetch;
- the two actions: `list` prints a notification with its state (the state
  filter when one is set, the resolved state otherwise), and `unsubscribe`
  skips an unread thread unless forced, marks a forced unread thread read,
  deletes the subscription and reports it.

The global `filters` variable is an explicit `Filters` value passed in. The
GitHub service is a `Remote` value of oracle functions: the listing, the
detail of a subject by URL, and the answers to the two remote mutations. The
answer to a mutation may depend on the whole history of the run, so a
second delete of the same subscription may fail. A run produces a trace of
`Event`s: the listing request, detail fetches, the hand-over of a
notification to the action (`Invoke`), the mutations with the answers the
service gave, and the printed lines. It also produces the error it stopped
with, if any.

Each part of the model has a pure specification function (`ResolveSubjectState`,
`PrintOutcome`, `UnsubscribeOutcome`, `Step`, `Walk`, `Run`). The source's
loop and its sequence of remote mutations are methods (`ForEachNotifications`,
`Unsubscribe`) proved equal to those functions; the list action, which
only computes a line to print, is the function `PrintOutcome` itself. The
properties are lemmas about the functions, with a reference definition
(`Selected`, the order-preserving filter of the listing) and an independent
per-thread lifecycle machine (`Phase`, `Follow`) as partners.

Files: `wrappers.dfy` (Option, Result), `notifications.dfy` (data model,
errors, events, remote service), `resolver.dfy`, `actions.dfy`,
`pipeline.dfy`, `scenarios.dfy` (end-to-end runs).

## Model

| member | source | states |
|---|---|---|
| Resolver.ResolveSubjectState | main.go:159-183 | a state is resolved exactly for a PullRequest or Issue whose detail fetch succeeds; a merged pull request yields "merged", otherwise the detail's own state; other types fail with UnsupportedSubjectType, failed fetches with DetailFetchError |
| Resolver.FetchEvents | main.go:163-181 | a resolution performs at most one remote read, of the subject's own URL, and only for a supported subject type |
| Resolver.IssueIgnoresMergedFlag | main.go:173-178 | an issue's resolved state depends only on the detail's state, never on its merged flag |
| Resolver.ResolveReadsOnlyOwnDetail | main.go:162-181 | resolution depends only on the detail at the notification's own subject URL |
| Actions.PrintOutcome | main.go:80-91 | with a state filter the filter is displayed and nothing is fetched; without one the resolver's fetch comes first, its state is printed, or its error is returned with nothing printed |
| Actions.UnsubscribeOutcome | main.go:102-118 | an unread thread that is not forced produces no remote call, no output and no error; no detail fetch or hand-over ever happens inside the action |
| Actions.Unsubscribe | main.go:102-118 | the unsubscribe closure's early-return sequence produces exactly the events and error of UnsubscribeOutcome |
| Actions.ActionOutcome | main.go:80-118 | neither action hands a notification to another action |
| Actions.UnsubscribeFollowsLifecycle | main.go:103-117 | unsubscribing is a complete run of the lifecycle machine (skip; mark-read then delete then report; delete then report; any failure aborts); it errs exactly when it aborts, skips exactly when it makes no call, and each recorded answer is the service's answer at that point of the history; an error is MarkReadError when the last call was the mark-read and UnsubscribeError otherwise |
| Actions.MarkReadFailureStopsBeforeDelete | main.go:107-109 | a failed mark-read returns MarkReadError with no delete attempted and nothing printed |
| Actions.ForcedUnreadMarksThenDeletes | main.go:103-117 | after a successful mark-read, a forced unread thread has its subscription deleted; the outcome is mark-read, delete, confirmation line and no error, or mark-read, failed delete and UnsubscribeError |
| Actions.ReadThreadOnlyDeletes | main.go:111-117 | a read thread gets exactly one delete call and no mark-read: the outcome is the delete and the confirmation line with no error, or the failed delete alone with UnsubscribeError, never masked |
| Pipeline.Prefilter | main.go:133-141 | a notification passing the type and repository checks has the configured subject type, and the configured repository when one is set; with no repository filter only the type is compared |
| Pipeline.Passes | main.go:133-151 | passing every filter implies passing the type and repository checks; with a state filter it implies a supported subject type whose resolved state equals the filter; without one the resolver plays no part |
| Pipeline.Selected | main.go:132-151 | the reference filter keeps only notifications from the listing that pass every filter |
| Pipeline.Prefiltered | main.go:133-141 | the type and repository filters keep exactly the listed notifications that match both |
| Pipeline.Act | main.go:152 | handing a notification to an action extends the trace with the hand-over first |
| Pipeline.Step | main.go:132-155 | processing one notification only extends the trace |
| Pipeline.Walk | main.go:132-156 | processing the listing only extends the trace |
| Pipeline.Run | main.go:126-130 | a pass makes one listing request first; a failed listing returns ListingFetchError before any action runs |
| Pipeline.ForEachNotifications | main.go:126-157 | the loop with its continues and early returns produces exactly the trace and error of Run |
| Pipeline.RunList | main.go:77-97 | the list command lists read notifications only when asked and prints through the pipeline |
| Pipeline.RunUnsubscribe | main.go:99-124 | the unsubscribe command always lists read and unread notifications and unsubscribes through the pipeline |
| Pipeline.StepInvoked | main.go:133-154 | one step hands the notification to the action exactly when it passes the type, repository and state filters, whether or not the step fails |
| Pipeline.ProcessedPrefix | main.go:132-156 | a stopped pass stops right after some notification, returns that notification's error as-is, has acted on exactly the selected notifications before it, and looks at nothing after it; a pass without error processes the whole listing |
| Pipeline.ActsOnSelected | main.go:132-156 | with no error, the notifications handed to the action are exactly the order-preserving filter of the listing, once each |
| Pipeline.OnlyPassingAreInvoked | main.go:133-152 | whatever happens, the action only sees notifications that pass every filter |
| Pipeline.WalkAppend | main.go:132-156 | a pass over a listing split in two is the pass over the first part followed, unless it failed, by the pass over the rest |
| Pipeline.RejectedAreInvisible | main.go:133-141 | notifications of another subject type, or of another repository when a repository filter is set, are never resolved or acted on: removing them from the listing changes nothing |
| Pipeline.UnsubscribeWithoutStateFilterNeverFetches | main.go:143-151 | without a state filter, an unsubscribe pass never fetches a subject's detail |
| Pipeline.StepNeverFetches | main.go:143-152 | without a state filter, one unsubscribe step only extends the trace and fetches no subject detail |
| Pipeline.ListStep | main.go:80-89 | for a list step, the detail is fetched at most once (exactly once for a PullRequest or Issue), by the pipeline with a state filter and by the action without, and the state printed is the resolved state |
| Pipeline.MergedPullRequestPasses | main.go:143-151 | a merged pull request passes a state filter exactly when the filter is "merged" |
| Pipeline.UnsupportedTypeAborts | main.go:143-147 | with an unsupported type filter and a state filter, no action ever runs, and the pass fails with UnsupportedSubjectType exactly when some notification matches type and repository |
| Scenarios.ListMergedPullRequest | main.go:80-91 | listing merged pull requests prints the merged one with state "merged" |
| Scenarios.UnsubscribeUnreadIssueNotForced | main.go:103-106 | an unread issue that is not forced leads to no remote mutation and no output |
| Scenarios.UnsubscribeUnreadIssueForced | main.go:103-117 | a forced unread issue is marked read, then unsubscribed, then reported |
| Scenarios.UnsupportedSubjectTypeAborts | main.go:143-147 | a commit notification under a state filter aborts the pass with UnsupportedSubjectType before any action runs |

## Left out

- Command-line wiring with cobra (main.go:27-58); the flag defaults are recorded as constants (`DefaultSubjectType`, `DefaultListState`, `DefaultUnsubscribeState`).
- Token loading from `GITHUB_TOKEN`, the oauth2 client, `main` and `os.Exit` (main.go:60-75, 195-201): process I/O and control.
- `getObject` and the HTTP request and JSON decoding (main.go:185-193): the detail fetch is the oracle `Remote.detail`, returning a state and merged flag or nothing.
- Pagination: only the first page is listed, as in the source; the listing is the single sequence `Remote.listing` returns.
- Exact output formatting (`%-80s` padding, the confirmation line's text): a printed line is one `PrintedLine` or `UnsubscribedLine` event carrying the printed fields.
- Error message wrapping text: errors are tagged variants of `Error`.
- Actions.UnsubscribeOutcome: its own contract states only the skip case; the full sequence of events and the error returned are stated by UnsubscribeFollowsLifecycle, MarkReadFailureStopsBeforeDelete, ForcedUnreadMarksThenDeletes and ReadThreadOnlyDeletes.
- Flag registration side effects: `list --state` is declared with the default "" (main.go:45) and `unsubscribe --state` with "closed" (main.go:54), both bound to the same `filters.subjectState`. If the flag library writes each default into the variable when the flag is registered, the later registration leaves "closed" for a plain `list` too. The flag library is not part of this model, so the model takes `Filters` as given and records the declared defaults as constants.
- Exit status: `runList` and `runUnsubscribe` print a pass error and return nothing (main.go:94-96, 121-123), so such a failure does not make the process exit non-zero. The model returns the error to its caller and does not model the exit status.
