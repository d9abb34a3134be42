# B4 dashboard fetcher — verified model

This project models the data-shaping core of the B4 project dashboard's
fetcher (`dashboard/fetch_data.py`). One run of the fetcher works in four steps:

- It checks that the tracker credentials are present. If either one is missing or empty, it stops before any search.
- It searches the tracker twice, first for BR bugs and then for FS tickets.
- It reshapes each issue returned into a compact record. A missing field gets a fixed default: `""`, `"Unknown"` or `"Unassigned"`.
- It builds the snapshot's `metrics` block: the two totals and the status tally of each list.

The model has four modules:

- `Wrappers` (`wrappers.dfy`): `Option`, for JSON members that may be absent.
- `IssueRecords` (`issue_records.dfy`): the upstream issue shape and the bug and ticket records. It also holds the per-issue mapping, with its truncations, defaults and browse link.
- `StatusCounts` (`status_counts.dfy`): `get_status_counts`. This is a loop method, proved against the recursive tally function `Tally`. The lemmas prove that the tally's keys are exactly the statuses present. They also prove that each count is the number of records with that status, and that the counts sum to the list length.
- `Fetcher` (`fetcher.dfy`): the 200/non-200 response rule, the two record-building loops, the metrics block and the credential-gated run.

A search response is an input value to the model: an HTTP status plus the body's `issues` member. Each fetch appends its search to a trace that the run threads through them. "Stops before any search" is therefore stated as an empty trace.

## Model

| member | source | states |
|---|---|---|
| IssueRecords.Truncate | dashboard/fetch_data.py:57 | the slice `s[:n]` is a prefix of `s` whose length is the smaller of `n` and `len(s)` |
| IssueRecords.Get | dashboard/fetch_data.py:58 | `fields.get(x, {}).get(attr, d)` is the member when the object has it, and `d` when the object or the member is absent |
| IssueRecords.GetIfTruthy | dashboard/fetch_data.py:59-60 | the truthiness-guarded lookup gives the default for an absent or empty object and for an object without the member; otherwise it gives the member |
| IssueRecords.GuardAgreesOnObjects | dashboard/fetch_data.py:59-60 | for an absent member or any object, the guarded lookup used for priority and assignee agrees with the unguarded lookup used for status. The guard matters only for JSON null, where the unguarded lookup raises; the model's `None` does not tell null apart from absent |
| IssueRecords.IssueUrl | dashboard/fetch_data.py:62 | the link starts with the fixed browse prefix, and the rest of it is exactly the issue key |
| IssueRecords.IssueUrlInjective | dashboard/fetch_data.py:62 | distinct keys give distinct links |
| IssueRecords.ToBug | dashboard/fetch_data.py:54-62 | a bug record keeps the key unchanged; its summary is the ≤60-character prefix of the summary, or "" when absent; its status falls back to "Unknown" and so does its priority; its assignee falls back to "Unassigned"; its created date is the ≤10-character prefix of the timestamp, or ""; its url is the browse link of the key |
| IssueRecords.ToTicket | dashboard/fetch_data.py:75-82 | a ticket record has the same fields as a bug record except that its summary is cut to ≤55 characters and it has no created field |
| IssueRecords.TicketAgreesWithBug | dashboard/fetch_data.py:55-82 | one issue mapped as a ticket and as a bug gives the same key, status, priority, assignee and url; the ticket's summary is a prefix of the bug's |
| StatusCounts.Bump | dashboard/fetch_data.py:93 | one tally step adds the status as a key and raises its count by one from `get(status, 0)`; all other counts stay the same |
| StatusCounts.TotalBump | dashboard/fetch_data.py:93 | each tally step raises the sum of the counts by exactly one |
| StatusCounts.TallyTotal | dashboard/fetch_data.py:88-94 | the counts of a tally sum to the number of records |
| StatusCounts.TallyCounts | dashboard/fetch_data.py:88-94 | the tally's keys are exactly the distinct statuses present; for every status, `counts.get(s, 0)` equals the number of records with status `s` |
| StatusCounts.GetStatusCounts | dashboard/fetch_data.py:88-94 | the loop's result is the tally: its keys are exactly the statuses present, each count is the number of records with that status, and an empty list gives an empty map (its counts sum to the list length by `TallyTotal`) |
| Fetcher.IssuesOf | dashboard/fetch_data.py:42-44 | a non-200 response yields no issues; a 200 response yields the body's `issues`, or none when that member is absent |
| Fetcher.FetchBugs | dashboard/fetch_data.py:47-65 | the bug search is appended to the run's search trace; there is one bug record per issue of the response, in response order, each the mapping of the issue at the same position |
| Fetcher.FetchTickets | dashboard/fetch_data.py:68-85 | the ticket search is appended to the run's search trace; there is one ticket record per issue of the response, in response order, each the mapping of the issue at the same position |
| Fetcher.MetricsOf | dashboard/fetch_data.py:155-160 | the totals are the list lengths; each status map has exactly the statuses present as keys, each count is the number of records with that status, and each map's counts sum to its total |
| Fetcher.Run | dashboard/fetch_data.py:102-160 | with a missing or empty username or token the run issues no search and produces nothing. Otherwise it searches bugs and then tickets. Its records are the mappings of the responses' issues, and its metrics are those of the two lists. A non-200 response leaves its list empty, with a zero total and an empty status map |

## Left out

- `dashboard/serve.py` (the static file server) is not part of this model. It is socket and HTTP plumbing with no application logic.
- Reading the credentials from the configuration file and the nested `.get` lookup into it (`get_credentials`): file I/O. The credential pair is an input to `Fetcher.Run`.
- The HTTP request of `fetch_jira_issues`: its URL, Basic authentication, query expression, result cap and field list. The response is an input value.
- A response body that is not JSON, and an `issues` member that is JSON null, both raise in `fetch_data.py`. The model's `Response` cannot express either case.
- An issue without a `key` or `fields` member raises `KeyError` in `fetch_data.py`. The model's `Issue` always has both.
- JSON null as the value of `summary`, `created` or `status` raises in `fetch_data.py`. A null `priority` or `assignee` is caught by the truthiness guard and behaves as an absent one; the model's `None` stands for both. Member values that are not strings are not modelled.
- The run's timestamp (clock), the constant project, milestone, priority and link tables, the directory creation, the writing of `dashboard.json` and the progress prints: clock, constant data and I/O.
- Status order in the tallies is not modelled. `get_status_counts` builds a Python dict, which keeps statuses in first-seen order, and the snapshot is written in that order. The model's tallies are unordered `map<string, nat>` values, so they fix the keys and the counts but not the order.
- A request that raises is not modelled. This covers a connection error and a timeout. In `fetch_data.py`, such a failure ends the run without a snapshot. The model's responses always arrive, so `Fetcher.Run` always produces a snapshot when the credentials are present.
- Malformed response shapes are not modelled. A 200 body that is JSON but not an object raises in `fetch_jira_issues`. An `issues` member that is a number or a boolean raises in the record-building loops, and so does a non-empty string or a non-empty object, whose elements are not issue objects. An empty string or empty object as `issues` gives no records, like an empty list. The model's `Response` always carries either a list of issues or no `issues` member.
- Bug records carry a `created` date; ticket records carry no date. Neither record has an update date or a version name, because `dashboard/fetch_data.py` builds neither.
