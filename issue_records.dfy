/**
 * The reshaping of one tracker issue into the compact record the dashboard
 * shows (dashboard/fetch_data.py, `fetch_b4_bugs` and `fetch_fs_tickets`).
 *
 * Every field of the upstream issue other than its key may be missing; each
 * missing field is replaced by a fixed default, so the mapping is total.
 */
module IssueRecords {
  import opened Wrappers

  /** A nested JSON object of an issue (its status, priority or assignee), by its string-valued members. */
  type Attrs = map<string, string>

  /** The `fields` object of an upstream issue; `None` is a member the object does not have. */
  datatype Fields = Fields(
    summary: Option<string>,
    status: Option<Attrs>,
    priority: Option<Attrs>,
    assignee: Option<Attrs>,
    created: Option<string>)

  /** An upstream issue as the search endpoint returns it. */
  datatype Issue = Issue(key: string, fields: Fields)

  /** The compact records written to the snapshot: bugs carry a creation date, tickets do not. */
  datatype Record =
    | Bug(key: string, summary: string, status: string, priority: string,
          assignee: string, created: string, url: string)
    | Ticket(key: string, summary: string, status: string, priority: string,
             assignee: string, url: string)

  const Unknown: string := "Unknown"
  const Unassigned: string := "Unassigned"
  const BrowsePrefix: string := "https://getnexar.atlassian.net/browse/"
  const BugSummaryWidth: nat := 60
  const TicketSummaryWidth: nat := 55
  const DateWidth: nat := 10

  function Min(a: nat, b: nat): nat {
    if a <= b then a else b
  }

  /** Truncation as Python slicing does it: the longest prefix of `s` that is at most `n` long. */
  function Truncate(s: string, n: nat): (r: string)
    ensures r <= s
    ensures |r| == Min(n, |s|)
  {
    if |s| <= n then s else s[..n]
  }

  /** A text member of the issue's fields, read as the empty string when it is absent. */
  function TextOr(v: Option<string>): string {
    v.GetOr("")
  }

  /**
   * A member of a nested object that may itself be absent; an absent object
   * reads as an empty one, and an absent member as `default`.
   */
  function Get(obj: Option<Attrs>, attr: string, default: string): (v: string)
    ensures obj.Some? && attr in obj.value ==> v == obj.value[attr]
    ensures obj.None? || attr !in obj.value ==> v == default
  {
    var o := obj.GetOr(map[]);
    if attr in o then o[attr] else default
  }

  /**
   * The same lookup behind a Python truthiness test on the object: an absent
   * or empty object gives `default` without being looked into.
   */
  function GetIfTruthy(obj: Option<Attrs>, attr: string, default: string): (v: string)
    ensures obj.None? || obj.value == map[] ==> v == default
    ensures obj.Some? && attr !in obj.value ==> v == default
    ensures obj.Some? && attr in obj.value ==> v == obj.value[attr]
  {
    if obj.Some? && obj.value != map[] then Get(obj, attr, default) else default
  }

  /**
   * For an absent member or any object, the truthiness guard does not change
   * the result. The guard matters only for JSON null, where the unguarded
   * lookup raises; the model's `None` does not tell null apart from absent.
   */
  lemma GuardAgreesOnObjects(obj: Option<Attrs>, attr: string, default: string)
    ensures GetIfTruthy(obj, attr, default) == Get(obj, attr, default)
  {
  }

  function StatusName(f: Fields): string {
    Get(f.status, "name", Unknown)
  }

  function PriorityName(f: Fields): string {
    GetIfTruthy(f.priority, "name", Unknown)
  }

  function AssigneeName(f: Fields): string {
    GetIfTruthy(f.assignee, "displayName", Unassigned)
  }

  /** The browse link of an issue; the key can be read back from it. */
  function IssueUrl(key: string): (url: string)
    ensures BrowsePrefix <= url
    ensures url[|BrowsePrefix|..] == key
  {
    BrowsePrefix + key
  }

  /** Distinct issues get distinct links. */
  lemma IssueUrlInjective(a: string, b: string)
    ensures IssueUrl(a) == IssueUrl(b) ==> a == b
  {
  }

  /** The record of one bug (fetch_data.py, `fetch_b4_bugs`). */
  function ToBug(issue: Issue): (r: Record)
    ensures r.Bug? && r.key == issue.key
    ensures r.summary <= TextOr(issue.fields.summary)
    ensures |r.summary| == Min(BugSummaryWidth, |TextOr(issue.fields.summary)|)
    ensures issue.fields.summary.None? ==> r.summary == ""
    ensures issue.fields.status.None? || "name" !in issue.fields.status.value ==> r.status == Unknown
    ensures issue.fields.status.Some? && "name" in issue.fields.status.value ==>
              r.status == issue.fields.status.value["name"]
    ensures issue.fields.priority.None? || "name" !in issue.fields.priority.value ==> r.priority == Unknown
    ensures issue.fields.priority.Some? && "name" in issue.fields.priority.value ==>
              r.priority == issue.fields.priority.value["name"]
    ensures issue.fields.assignee.None? || "displayName" !in issue.fields.assignee.value ==> r.assignee == Unassigned
    ensures issue.fields.assignee.Some? && "displayName" in issue.fields.assignee.value ==>
              r.assignee == issue.fields.assignee.value["displayName"]
    ensures r.created <= TextOr(issue.fields.created)
    ensures |r.created| == Min(DateWidth, |TextOr(issue.fields.created)|)
    ensures issue.fields.created.None? ==> r.created == ""
    ensures r.url == IssueUrl(issue.key)
  {
    var f := issue.fields;
    Bug(issue.key,
        Truncate(TextOr(f.summary), BugSummaryWidth),
        StatusName(f),
        PriorityName(f),
        AssigneeName(f),
        Truncate(TextOr(f.created), DateWidth),
        IssueUrl(issue.key))
  }

  /** The record of one ticket (fetch_data.py, `fetch_fs_tickets`): no creation date, a shorter summary. */
  function ToTicket(issue: Issue): (r: Record)
    ensures r.Ticket? && r.key == issue.key
    ensures r.summary <= TextOr(issue.fields.summary)
    ensures |r.summary| == Min(TicketSummaryWidth, |TextOr(issue.fields.summary)|)
    ensures issue.fields.summary.None? ==> r.summary == ""
    ensures issue.fields.status.None? || "name" !in issue.fields.status.value ==> r.status == Unknown
    ensures issue.fields.status.Some? && "name" in issue.fields.status.value ==>
              r.status == issue.fields.status.value["name"]
    ensures issue.fields.priority.None? || "name" !in issue.fields.priority.value ==> r.priority == Unknown
    ensures issue.fields.priority.Some? && "name" in issue.fields.priority.value ==>
              r.priority == issue.fields.priority.value["name"]
    ensures issue.fields.assignee.None? || "displayName" !in issue.fields.assignee.value ==> r.assignee == Unassigned
    ensures issue.fields.assignee.Some? && "displayName" in issue.fields.assignee.value ==>
              r.assignee == issue.fields.assignee.value["displayName"]
    ensures r.url == IssueUrl(issue.key)
  {
    var f := issue.fields;
    Ticket(issue.key,
           Truncate(TextOr(f.summary), TicketSummaryWidth),
           StatusName(f),
           PriorityName(f),
           AssigneeName(f),
           IssueUrl(issue.key))
  }

  /**
   * The same issue read as a ticket and as a bug gives the same key, status,
   * priority, assignee and link, and the ticket's summary is a prefix of the bug's.
   */
  lemma TicketAgreesWithBug(issue: Issue)
    ensures ToTicket(issue).key == ToBug(issue).key
    ensures ToTicket(issue).status == ToBug(issue).status
    ensures ToTicket(issue).priority == ToBug(issue).priority
    ensures ToTicket(issue).assignee == ToBug(issue).assignee
    ensures ToTicket(issue).url == ToBug(issue).url
    ensures ToTicket(issue).summary <= ToBug(issue).summary
  {
  }
}
