/**
 * One run of the dashboard fetcher (dashboard/fetch_data.py): the
 * credential gate, the two issue searches, the reshaping of their results
 * and the metrics block of the snapshot.
 *
 * The HTTP exchange itself is not modelled: each search's response is an
 * input, and the searches a run issues are reported as a trace.
 */
module Fetcher {
  import opened Wrappers
  import opened IssueRecords
  import opened StatusCounts

  /** A search response: its HTTP status and the body's `issues` member, if any. */
  datatype Response = Response(statusCode: int, issues: Option<seq<Issue>>)

  const StatusOk: int := 200

  /** `fetch_jira_issues`: a 200 response yields its issues (none when the member is absent), any other status none. */
  function IssuesOf(resp: Response): (issues: seq<Issue>)
    ensures resp.statusCode != StatusOk ==> issues == []
    ensures resp.statusCode == StatusOk && resp.issues.Some? ==> issues == resp.issues.value
    ensures resp.statusCode == StatusOk && resp.issues.None? ==> issues == []
  {
    if resp.statusCode == StatusOk then resp.issues.GetOr([]) else []
  }

  /** The searches a run issues, in order. */
  datatype Search = BugSearch | TicketSearch

  /**
   * `fetch_b4_bugs`: issue the bug search, recorded at the end of `trace`, and
   * build one bug record per issue of its response, in response order.
   */
  method FetchBugs(trace: seq<Search>, resp: Response) returns (trace': seq<Search>, bugs: seq<Record>)
    ensures trace' == trace + [BugSearch]
    ensures |bugs| == |IssuesOf(resp)|
    ensures forall k :: 0 <= k < |bugs| ==> bugs[k] == ToBug(IssuesOf(resp)[k])
  {
    trace' := trace + [BugSearch];
    var issues := IssuesOf(resp);
    bugs := [];
    for i := 0 to |issues|
      invariant |bugs| == i
      invariant forall k :: 0 <= k < i ==> bugs[k] == ToBug(issues[k])
    {
      bugs := bugs + [ToBug(issues[i])];
    }
  }

  /**
   * `fetch_fs_tickets`: issue the ticket search, recorded at the end of
   * `trace`, and build one ticket record per issue of its response, in
   * response order.
   */
  method FetchTickets(trace: seq<Search>, resp: Response) returns (trace': seq<Search>, tickets: seq<Record>)
    ensures trace' == trace + [TicketSearch]
    ensures |tickets| == |IssuesOf(resp)|
    ensures forall k :: 0 <= k < |tickets| ==> tickets[k] == ToTicket(IssuesOf(resp)[k])
  {
    trace' := trace + [TicketSearch];
    var issues := IssuesOf(resp);
    tickets := [];
    for i := 0 to |issues|
      invariant |tickets| == i
      invariant forall k :: 0 <= k < i ==> tickets[k] == ToTicket(issues[k])
    {
      tickets := tickets + [ToTicket(issues[i])];
    }
  }

  /** The `metrics` block of the snapshot. */
  datatype Metrics = Metrics(
    totalBugs: nat,
    totalTickets: nat,
    bugStatus: map<string, nat>,
    ticketStatus: map<string, nat>)

  /** The part of the snapshot computed from the searches (timestamp and constant tables left out). */
  datatype Snapshot = Snapshot(bugs: seq<Record>, tickets: seq<Record>, metrics: Metrics)

  /** The metrics of a snapshot: totals and status tallies that agree with each other. */
  function MetricsOf(bugs: seq<Record>, tickets: seq<Record>): (m: Metrics)
    ensures m.totalBugs == |bugs| && m.totalTickets == |tickets|
    ensures m.bugStatus.Keys == Statuses(bugs)
    ensures m.ticketStatus.Keys == Statuses(tickets)
    ensures forall s :: s in m.bugStatus ==> m.bugStatus[s] == Occurrences(bugs, s)
    ensures forall s :: s in m.ticketStatus ==> m.ticketStatus[s] == Occurrences(tickets, s)
    ensures Total(m.bugStatus) == m.totalBugs
    ensures Total(m.ticketStatus) == m.totalTickets
  {
    TallyCounts(bugs);
    TallyCounts(tickets);
    TallyTotal(bugs);
    TallyTotal(tickets);
    Metrics(|bugs|, |tickets|, Tally(bugs), Tally(tickets))
  }

  /** The tracker credentials; `None` is a setting the configuration does not have. */
  datatype Credentials = Credentials(username: Option<string>, token: Option<string>)

  /** Python truthiness of both settings: present and non-empty. */
  predicate CredentialsPresent(creds: Credentials) {
    && creds.username.Some? && creds.username.value != ""
    && creds.token.Some? && creds.token.value != ""
  }

  /**
   * `main`: stop before any search when a credential is missing or empty;
   * otherwise search bugs then tickets, reshape both and compute the metrics.
   */
  method Run(creds: Credentials, bugResp: Response, ticketResp: Response)
    returns (searches: seq<Search>, snapshot: Option<Snapshot>)
    ensures !CredentialsPresent(creds) ==> searches == [] && snapshot == None
    ensures CredentialsPresent(creds) ==> searches == [BugSearch, TicketSearch] && snapshot.Some?
    ensures snapshot.Some? ==>
      && |snapshot.value.bugs| == |IssuesOf(bugResp)|
      && (forall k :: 0 <= k < |snapshot.value.bugs| ==>
            snapshot.value.bugs[k] == ToBug(IssuesOf(bugResp)[k]))
      && |snapshot.value.tickets| == |IssuesOf(ticketResp)|
      && (forall k :: 0 <= k < |snapshot.value.tickets| ==>
            snapshot.value.tickets[k] == ToTicket(IssuesOf(ticketResp)[k]))
      && snapshot.value.metrics == MetricsOf(snapshot.value.bugs, snapshot.value.tickets)
    ensures snapshot.Some? && bugResp.statusCode != StatusOk ==>
      snapshot.value.bugs == [] && snapshot.value.metrics.totalBugs == 0 && snapshot.value.metrics.bugStatus == map[]
    ensures snapshot.Some? && ticketResp.statusCode != StatusOk ==>
      snapshot.value.tickets == [] && snapshot.value.metrics.totalTickets == 0
      && snapshot.value.metrics.ticketStatus == map[]
  {
    if !CredentialsPresent(creds) {
      return [], None;
    }
    var bugs, tickets;
    searches, bugs := FetchBugs([], bugResp);
    searches, tickets := FetchTickets(searches, ticketResp);
    var ticketCounts := GetStatusCounts(tickets);
    var bugCounts := GetStatusCounts(bugs);
    var metrics := Metrics(|bugs|, |tickets|, bugCounts, ticketCounts);
    snapshot := Some(Snapshot(bugs, tickets, metrics));
  }
}
