# Loan-inquiry admin dashboard: a Dafny model

This project models the logic of a small React admin front-end for loan
inquiries. It covers two parts.

- **The inquiry dashboard** (`src/pages/Dashboard.js`). It has three pieces of
  view state: the inquiry list, the loading flag and the selected status
  filter. Three handlers change that state: the read of the collection, the
  status update and the delete. The page also derives the filtered rows, the
  status badge colours and the stat cards (the total count and one count per
  status).
- **The protected-route gate** (`src/App.js`). `PrivateRoute` lets an
  authenticated visitor through to its child inside the shared layout and
  sends everyone else to `/login`. The route table maps `/login` to the open
  login page, and `/` and `/contacts` to the dashboard and contacts pages
  behind the gate.

The network and the confirmation prompt are inputs to the model. Each handler
gets the outcome of every call it makes: a read returns `Fetched(list)` or
`FetchFailed`, a mutation returns `Succeeded` or `MutationFailed`, and the
delete prompt gives a boolean. Each handler returns the requests it sent, in
order. This is how the model says that a declined delete sends nothing.
Each handler runs to completion, including the re-read that follows a
successful mutation.

Files:

- `wrappers.dfy`: an `Option` type.
- `inquiries.dfy` (module `Inquiries`): the inquiry record, the status filter,
  the badge colours and the counts.
- `dashboard.dfy` (module `Dashboard`): the view state and the events. `Step`
  and `Run` say, as values, what the handlers do. Lemmas cover whole event
  sequences. The class `Component` holds the state as fields, and its
  handler methods are proved to follow `Step`.
- `routing.dfy` (module `Routing`): the gate, the route table and path
  resolution.

The drop-downs offer three statuses (src/pages/Dashboard.js:168-171 and
228-230), but the code compares plain strings. The filter matches any string
exactly, and any string other than `approved` and `rejected` is coloured
yellow. The model follows the code, so a status is a `string`.

## Model

| member | source | states |
|---|---|---|
| `Inquiries.StatusColor` | src/pages/Dashboard.js:61-70 | green exactly for `approved`, red exactly for `rejected`, yellow exactly for every other string (pending and unknown values included) |
| `Inquiries.FilterByStatus` | src/pages/Dashboard.js:59 | every kept record has the requested status; a record is kept exactly when it is in the list and has that status; the result is no longer than the list |
| `Inquiries.FilterByStatusIsSubsequence` | src/pages/Dashboard.js:59 | the filter result is an order-preserving subsequence of the list |
| `Inquiries.FilterByStatusAppend` | src/pages/Dashboard.js:59 | filtering distributes over concatenation, so the filter works record by record in list order |
| `Inquiries.FilterByStatusMultiset` | src/pages/Dashboard.js:59 | every occurrence of a matching record is kept and every other record is dropped (multiplicities agree) |
| `Inquiries.FilterByStatusKeepsMatching` | src/pages/Dashboard.js:59 | a list in which every record already has the status comes back unchanged |
| `Inquiries.FilterByStatusIdempotent` | src/pages/Dashboard.js:59 | filtering twice by one status is the same as filtering once |
| `Inquiries.Filtered` | src/pages/Dashboard.js:57-59 | with `all` the rows are the whole list; the rows are always a subsequence of the list; otherwise a record is shown exactly when it has the selected status, as many times as it occurs in the list |
| `Inquiries.StatusCount` | src/pages/Dashboard.js:144 | a status card's count is the length of the filter for that status, and never more than the list length |
| `Inquiries.KnownCountsBounded` | src/pages/Dashboard.js:133-144 | the pending, approved and rejected counts sum to at most the list length, with equality exactly when every record has one of those three statuses |
| `Inquiries.StatsOf` | src/pages/Dashboard.js:127-144 | the total is the unfiltered list length; each status count equals the number of rows that filter shows; the three counts sum to at most the total |
| `Dashboard.Init` | src/pages/Dashboard.js:6-8 | the initial state: an empty list, loading true and the filter `all` |
| `Dashboard.AfterFetch` | src/pages/Dashboard.js:21-25 | a completed read: the list becomes the response list on success and is kept on failure; loading is false either way; the filter is untouched |
| `Dashboard.Step` | src/pages/Dashboard.js:15-55 | one handled event: loading stays true exactly when it was true and the event sent no read; the list becomes the list the event delivered, or is kept when none was delivered; only a filter change touches the selected status, and it sets it to the chosen value (line 165) |
| `Dashboard.Requests` | src/pages/Dashboard.js:18-50 | the requests an event sends: none exactly for a filter change or a declined delete; the patch or delete comes first; at most one read, and only as the last request |
| `Dashboard.DeliveredOnlyByRead` | src/pages/Dashboard.js:15-21 | a handler only applies a list when it sent a read; changing the filter sends no request |
| `Dashboard.RunAppend` | src/pages/Dashboard.js:15-55 | handling two event sequences one after the other is handling their concatenation |
| `Dashboard.LoadingStaysCleared` | src/pages/Dashboard.js:25 | nothing sets the loading flag again: once false, it stays false after any events, re-reads included |
| `Dashboard.LoadingUntilFirstRead` | src/pages/Dashboard.js:7-25 | the loading flag is still true exactly when it was true at the start and no handled event sent a read |
| `Dashboard.MountedNeverLoadsAgain` | src/pages/Dashboard.js:11-13 | after the read sent on mount completes, whether it succeeded or failed, the spinner never returns |
| `Dashboard.MirrorsLastRead` | src/pages/Dashboard.js:21 | after any events, the list is the one returned by the last successful read, or the initial list if no read succeeded |
| `Dashboard.LastDeliveredIsDelivered` | src/pages/Dashboard.js:21 | the last successful read's list is either the initial list or a list that some event actually delivered |
| `Dashboard.NeverPatchedLocally` | src/pages/Dashboard.js:29-55 | after any events, the list is either unchanged or exactly a list returned by a successful read; the handlers never edit it entry by entry |
| `Dashboard.SelectionKeptByHandlers` | src/pages/Dashboard.js:8 | reads, status updates and deletes never change the selected status; only the filter choice does |
| `Dashboard.FailedFirstRead` | src/pages/Dashboard.js:6-27 | if the first read fails, the list stays empty, loading becomes false and the filter stays `all` |
| `Dashboard.Render` | src/pages/Dashboard.js:82-91 | the spinner shows exactly while loading; otherwise the total is the unfiltered count and the rows are the filtered subsequence (the whole list for `all`, otherwise exactly the matching records, each as many times as it occurs in the list) |
| `Dashboard.FilterLeavesStats` | src/pages/Dashboard.js:127 | changing the filter leaves every stat card as it was |
| `Dashboard.CardCountMatchesRows` | src/pages/Dashboard.js:144 | when a known status is selected, the number of rows shown equals that status card's count |
| `Dashboard.Component.constructor` | src/pages/Dashboard.js:6-8 | at first render the list is empty, loading is true and the filter is `all` |
| `Dashboard.Component.FetchInquiries` | src/pages/Dashboard.js:15-27 | sends one read; on success the list becomes the response list, on failure the list is unchanged; loading is false afterwards either way; the filter is untouched |
| `Dashboard.Component.UpdateInquiryStatus` | src/pages/Dashboard.js:29-41 | sends the patch; on success the only follow-up is one re-read, with its effect; on failure no field changes and no other request is sent |
| `Dashboard.Component.DeleteInquiry` | src/pages/Dashboard.js:43-55 | if declined, sends nothing and changes nothing; if confirmed and the delete succeeds, one re-read follows; if confirmed and it fails, nothing changes |
| `Dashboard.Component.SetSelectedStatus` | src/pages/Dashboard.js:165 | the filter drop-down sets the selected status and leaves the list and the loading flag alone |
| `Dashboard.Component.Handle` | src/pages/Dashboard.js:11-55 | handling an event sends exactly the requests `Requests` lists and moves the fields to `Step` of the old state |
| `Routing.PrivateRoute` | src/App.js:12-15 | when authenticated, renders the child inside the layout; when not, redirects to `/login` and renders nothing else |
| `Routing.Resolve` | src/App.js:23-41 | a path matches nothing exactly when no route has it; a redirect goes to `/login` and happens only when signed out; a page in the layout renders only when signed in and is never the login page; a page outside the layout is the login page at `/login` |
| `Routing.Lookup` | src/App.js:23-41 | a route is found exactly when some table entry has the path, and what is found is that entry's element |
| `Routing.RoutePathsDistinct` | src/App.js:24-40 | no two routes share a path |
| `Routing.LoginIsPublic` | src/App.js:24 | `/login` renders the login page without the layout, whatever the authentication state |
| `Routing.GuardedPages` | src/App.js:25-40 | `/` is the dashboard and `/contacts` the contacts page, both through the same gate |
| `Routing.SignedOutSeesOnlyLogin` | src/App.js:14 | signed out, the only page that renders is the login page, and every redirect goes to `/login` |
| `Routing.SignedInNeverRedirected` | src/App.js:14 | signed in, no path redirects, and every page other than login renders inside the layout |
| `Routing.SigningInOnlyOpensGuarded` | src/App.js:12-40 | what renders signed out renders the same signed in; signing in does not change which paths match |
| `Routing.RedirectLandsOnLogin` | src/App.js:14-24 | a redirect lands on a path that renders the login page, so no path redirects in a loop |
| `Routing.UnlistedPathsMatchNothing` | src/App.js:23-41 | a path outside the table matches no route |

## Left out

- HTTP calls, URLs and bearer headers: network I/O. Each call is an input outcome.
- The stored token: browser storage. The model never reads it, and requests do not carry it.
- The confirmation prompt: a UI prompt. It is a boolean input.
- Error logging to the console: it has no effect on state.
- The date and amount formatting: these depend on date and locale libraries that are not part of this model. Amounts are `int` fields that are only displayed.
- Overlapping requests and last-response-wins races: the source does not await the re-read after a mutation. The model runs each handler and its re-read to completion, in order.
- Setting state after the page has been unmounted. Mount timing is modelled only as the first `Refresh` event.
- Markup and styling other than the three badge classes. The theme and Tailwind configuration are static and have no behaviour.
- The authentication context, the login, layout and contacts pages, and the logout button: they are not part of this model. `isAuthenticated` is an input.
- Routing.Lookup: compares paths exactly. The router library's own matching rules, such as case and trailing slashes, are not part of this model.
- The values the drop-downs offer (`pending`, `approved`, `rejected`, `all`): the model accepts any string as a filter value or a new status, which is more general.
