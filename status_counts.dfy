/**
 * The status tally of a list of records (dashboard/fetch_data.py,
 * `get_status_counts`): a map from each status name to the number of records
 * that have it.
 */
module StatusCounts {
  import opened IssueRecords

  /** One step of the tally: the status's count goes up by one, starting from zero for a status not seen yet. */
  function Bump(counts: map<string, nat>, status: string): (r: map<string, nat>)
    ensures r.Keys == counts.Keys + {status}
    ensures status in counts ==> r[status] == counts[status] + 1
    ensures status !in counts ==> r[status] == 1
    ensures forall s :: s in counts && s != status ==> r[s] == counts[s]
  {
    counts[status := (if status in counts then counts[status] else 0) + 1]
  }

  /** The tally of `records`, built record by record in list order. */
  function Tally(records: seq<Record>): map<string, nat> {
    if records == [] then map[]
    else Bump(Tally(records[..|records| - 1]), records[|records| - 1].status)
  }

  /** The number of records whose status is `status`. */
  function Occurrences(records: seq<Record>, status: string): nat {
    if records == [] then 0
    else Occurrences(records[..|records| - 1], status)
         + (if records[|records| - 1].status == status then 1 else 0)
  }

  /** The distinct status names present in `records`. */
  function Statuses(records: seq<Record>): set<string> {
    set i | 0 <= i < |records| :: records[i].status
  }

  ghost function PickKey(m: map<string, nat>): (k: string)
    requires m != map[]
    ensures k in m
  {
    var k :| k in m; k
  }

  /** The sum of the values of a tally. */
  ghost function Total(m: map<string, nat>): nat
    decreases m.Keys
  {
    if m == map[] then 0
    else
      var k := PickKey(m);
      m[k] + Total(m - {k})
  }

  /** The sum can be split at any key, whichever key `Total` happens to pick. */
  lemma {:induction false} TotalSplit(m: map<string, nat>, k: string)
    requires k in m
    ensures Total(m) == m[k] + Total(m - {k})
    decreases m.Keys
  {
    var j := PickKey(m);
    if j != k {
      TotalSplit(m - {j}, k);
      TotalSplit(m - {k}, j);
      assert m - {j} - {k} == m - {k} - {j};
    }
  }

  /** Each tally step adds exactly one to the sum. */
  lemma TotalBump(counts: map<string, nat>, status: string)
    ensures Total(Bump(counts, status)) == Total(counts) + 1
  {
    var r := Bump(counts, status);
    TotalSplit(r, status);
    if status in counts {
      TotalSplit(counts, status);
      assert r - {status} == counts - {status};
    } else {
      assert r - {status} == counts;
    }
  }

  /** The counts of a tally sum to the number of records tallied. */
  lemma {:induction false} TallyTotal(records: seq<Record>)
    ensures Total(Tally(records)) == |records|
  {
    if records != [] {
      TallyTotal(records[..|records| - 1]);
      TotalBump(Tally(records[..|records| - 1]), records[|records| - 1].status);
    }
  }

  /**
   * The keys of a tally are exactly the statuses present, and every status
   * (present or not) is counted as often as it occurs.
   */
  lemma {:induction false} TallyCounts(records: seq<Record>)
    ensures Tally(records).Keys == Statuses(records)
    ensures forall s :: (if s in Tally(records) then Tally(records)[s] else 0) == Occurrences(records, s)
  {
    if records != [] {
      var front, last := records[..|records| - 1], records[|records| - 1];
      TallyCounts(front);
      assert Statuses(records) == Statuses(front) + {last.status} by {
        assert forall i :: 0 <= i < |front| ==> records[i] == front[i];
        assert records[|records| - 1] == last;
      }
    }
  }

  /** `get_status_counts`: the tally of the records' statuses, by a loop over the list. */
  method GetStatusCounts(records: seq<Record>) returns (counts: map<string, nat>)
    ensures counts == Tally(records)
    ensures counts.Keys == Statuses(records)
    ensures forall s :: s in counts ==> counts[s] == Occurrences(records, s)
    ensures records == [] ==> counts == map[]
  {
    counts := map[];
    for i := 0 to |records|
      invariant counts == Tally(records[..i])
    {
      var status := records[i].status;
      counts := counts[status := (if status in counts then counts[status] else 0) + 1];
      assert records[..i + 1][..i] == records[..i];
    }
    assert records[..|records|] == records;
    TallyCounts(records);
  }
}
