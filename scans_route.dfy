/** `GET /api/seo/scans` (`app/api/seo/scans/route.ts`): the caller's scans, newest first,
    each reduced to its id, url and creation time. */
module ScansRoute {
  import opened Js
  import opened Http
  import opened Queries
  import opened Store

  /** `select: { id: true, url: true, createdAt: true }`: the payload has no place here. */
  datatype ScanSummary = ScanSummary(id: ScanId, url: string, createdAt: int)

  function SummaryOf(s: Scan): ScanSummary {
    ScanSummary(s.id, s.url, s.createdAt)
  }

  /** The projection, row by row: the summaries are those of the scans, in the same order. */
  function Summaries(scans: seq<Scan>): (r: seq<ScanSummary>)
    ensures |r| == |scans|
    ensures forall i :: 0 <= i < |r| ==> r[i] == SummaryOf(scans[i])
    ensures forall s :: s in scans ==> SummaryOf(s) in r
    ensures forall e :: e in r ==> exists s :: s in scans && e == SummaryOf(s)
  {
    if scans == [] then []
    else
      assert scans == [scans[0]] + scans[1..];
      [SummaryOf(scans[0])] + Summaries(scans[1..])
  }

  /** The handler: a 401 whose body is the empty list without a session; otherwise one entry
      per scan of the caller, and none for anyone else's, newest first. */
  function Get(session: Session, scans: seq<Scan>): (r: Response<seq<ScanSummary>>)
    ensures session.None? <==> r == Unauthorized("[]")
    ensures session.Some? ==> r.Ok? && r.status == 200
    ensures session.Some? ==> forall e :: e in r.body ==>
              exists s :: s in scans && s.userId == session.value && e == SummaryOf(s)
    ensures session.Some? ==> forall s :: s in scans && s.userId == session.value ==> SummaryOf(s) in r.body
    ensures session.Some? ==> |r.body| == |Filter(scans, (s: Scan) => s.userId == session.value)|
    ensures session.Some? ==> forall i, j :: 0 <= i < j < |r.body| ==> r.body[i].createdAt >= r.body[j].createdAt
  {
    if session.None? then Unauthorized("[]")
    else
      var mine := ScansOf(scans, session.value);
      assert |multiset(mine)| == |multiset(Filter(scans, (s: Scan) => s.userId == session.value))|;
      Ok(200, Summaries(mine))
  }
}
