/**
 * The `/api/contests` handler (backend/server.js): keep the recognised
 * listings, order them by start time, move each start to Indian Standard
 * Time and keep the public fields.
 */
module Aggregator {
  import opened Wrappers
  import opened Seqs
  import opened Classifier

  /** `5.5 * 60`: the UTC+5:30 offset in minutes. */
  const IST_OFFSET_MINUTES: int := 5 * 60 + 30

  /** `istOffset * 60 * 1000`: the same offset in milliseconds, 19,800,000. */
  const IST_OFFSET_MS: int := IST_OFFSET_MINUTES * 60 * 1000

  /** One record of the response; `start` is in milliseconds, already shifted. */
  datatype Contest = Contest(id: int, event: string, start: int, href: string, platform: Label)

  datatype Response =
    | Ok(contests: seq<Contest>)
    | ServerError(status: int, error: string)

  predicate IsKnown(c: Entry) {
    DetectPlatform(c) != Other
  }

  function EntryStart(c: Entry): int {
    c.start
  }

  function ContestStart(c: Contest): int {
    c.start
  }

  /** The `map` step: shift the start by the offset and classify again. */
  function ToIst(c: Entry): Contest {
    Contest(c.id, c.event, c.start + IST_OFFSET_MS, c.href, DetectPlatform(c))
  }

  lemma KnownAfterSort(known: seq<Entry>, sorted: seq<Entry>)
    requires forall c :: c in known ==> IsKnown(c)
    requires multiset(sorted) == multiset(known)
    ensures forall k :: 0 <= k < |Map(sorted, ToIst)| ==> Map(sorted, ToIst)[k].platform != Other
  {
    forall k | 0 <= k < |sorted|
      ensures Map(sorted, ToIst)[k].platform != Other
    {
      assert sorted[k] in multiset(sorted);
      assert sorted[k] in multiset(known);
      assert IsKnown(sorted[k]);
      MapAt(sorted, ToIst, k);
    }
  }

  /** The shift is the same for every record, so it keeps the order the sort produced. */
  lemma {:induction false} ShiftKeepsOrder(s: seq<Entry>)
    requires SortedBy(s, EntryStart)
    ensures SortedBy(Map(s, ToIst), ContestStart)
  {
    if |s| > 1 {
      ShiftKeepsOrder(s[1..]);
      assert Map(s, ToIst)[1..] == Map(s[1..], ToIst);
    }
  }

  /** The response body built from the upstream `objects` array. */
  function Aggregate(entries: seq<Entry>): (r: seq<Contest>)
    ensures |r| == |Filter(entries, IsKnown)|
    ensures forall k :: 0 <= k < |r| ==> r[k].platform != Other
    ensures SortedBy(r, ContestStart)
    ensures multiset(r) == multiset(Map(Filter(entries, IsKnown), ToIst))
  {
    var known := Filter(entries, IsKnown);
    var sorted := SortBy(known, EntryStart);
    MapPermutation(sorted, known, ToIst);
    KnownAfterSort(known, sorted);
    ShiftKeepsOrder(sorted);
    Map(sorted, ToIst)
  }

  /** No recognised listing is lost and nothing else is added: counts agree element by element. */
  lemma AggregateCounts(entries: seq<Entry>, c: Entry)
    ensures multiset(Aggregate(entries))[ToIst(c)] >= (if IsKnown(c) then multiset(entries)[c] else 0)
    ensures IsKnown(c) && c in entries ==> ToIst(c) in Aggregate(entries)
  {
    var known := Filter(entries, IsKnown);
    MapCount(known, ToIst, c);
  }

  /** Each record comes from a recognised listing: same id, title and link, start shifted by the offset. */
  lemma AggregateRecord(entries: seq<Entry>, k: int)
    requires 0 <= k < |Aggregate(entries)|
    ensures exists c :: c in entries && IsKnown(c) && Aggregate(entries)[k] == ToIst(c)
    ensures var o := Aggregate(entries)[k];
      exists c :: c in entries && DetectPlatform(c) != Other
        && o.id == c.id && o.event == c.event && o.href == c.href
        && o.start == c.start + 19_800_000 && o.platform == DetectPlatform(c)
  {
    var known := Filter(entries, IsKnown);
    ImageMember(known, ToIst, Aggregate(entries), k);
    var j :| 0 <= j < |known| && Aggregate(entries)[k] == ToIst(known[j]);
    assert known[j] in known;
  }

  /** The handler: the aggregated list, or a 500 with a fixed message when the upstream call failed. */
  function HandleContests(upstream: Result<seq<Entry>, string>): (r: Response)
    ensures upstream.Success? <==> r.Ok?
    ensures r.Ok? ==> r.contests == Aggregate(upstream.value)
    ensures r.ServerError? ==> r.status == 500 && r.error == "Failed to fetch contests"
  {
    match upstream
    case Success(entries) => Ok(Aggregate(entries))
    case Failure(_) => ServerError(500, "Failed to fetch contests")
  }
}
