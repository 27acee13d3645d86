/**
 * Draw-record extraction (script.py, section "Scraping").
 *
 * A results page yields two lists of ball values, already read as integers:
 * the main balls, in draw order, and the supplementary ("powerball") balls.
 * The main balls are cut into chunks of seven, and each chunk is followed by
 * the supplementary value with the same index, or by the sentinel 0 when
 * the supplementary list runs short.
 */
module Scrape {

  /** Main balls per draw. */
  const BallsPerDraw: nat := 7
  /** A full record: seven main balls and the supplementary ball. */
  const RecordWidth: nat := 8
  /** Stands in for a supplementary ball the page does not have. */
  const MissingSupplementary: int := 0
  /** The only response code whose page is read. */
  const StatusOk: int := 200

  /** What one request for one year's results gives back. */
  datatype Page = Page(status: int, ball: seq<int>, powerball: seq<int>)

  /** Number of chunks the loop visits over n main balls: n / 7 rounded up. */
  function DrawCount(n: nat): nat {
    (n + BallsPerDraw - 1) / BallsPerDraw
  }

  /** End of chunk k: seven past its start, or the end of the list. */
  function ChunkEnd(n: nat, k: nat): nat {
    if BallsPerDraw * k + BallsPerDraw <= n then BallsPerDraw * k + BallsPerDraw else n
  }

  /** The supplementary value that goes with chunk k. */
  function SupplementaryAt(powerball: seq<int>, k: nat): int {
    if k < |powerball| then powerball[k] else MissingSupplementary
  }

  /**
   * Record k of a page: the main balls ball[7k .. min(7k + 7, n)] followed by
   * the supplementary value for k.
   */
  function DrawRecord(ball: seq<int>, powerball: seq<int>, k: nat): (r: seq<int>)
    requires k < DrawCount(|ball|)
    ensures 2 <= |r| <= RecordWidth
    ensures r[|r| - 1] == SupplementaryAt(powerball, k)
  {
    ball[BallsPerDraw * k .. ChunkEnd(|ball|, k)] + [SupplementaryAt(powerball, k)]
  }

  /** All records of one page, in order. */
  function PageRecords(ball: seq<int>, powerball: seq<int>): (records: seq<seq<int>>)
    ensures |records| == DrawCount(|ball|)
  {
    seq(DrawCount(|ball|), k requires 0 <= k < DrawCount(|ball|) => DrawRecord(ball, powerball, k))
  }

  /**
   * The chunk loop of one page: steps i through 0, 7, 14, ... below the
   * number of main balls and appends one record per step.
   */
  method ExtractPage(ball: seq<int>, powerball: seq<int>) returns (records: seq<seq<int>>)
    ensures records == PageRecords(ball, powerball)
  {
    records := [];
    var i := 0;
    while i < |ball|
      invariant i == BallsPerDraw * |records|
      invariant |records| <= DrawCount(|ball|)
      invariant forall k :: 0 <= k < |records| ==> records[k] == DrawRecord(ball, powerball, k)
      decreases |ball| - i
    {
      var end := if i + BallsPerDraw <= |ball| then i + BallsPerDraw else |ball|;
      var numbers := ball[i .. end];
      var pb := if i / BallsPerDraw < |powerball| then powerball[i / BallsPerDraw] else MissingSupplementary;
      records := records + [numbers + [pb]];
      i := i + BallsPerDraw;
    }
  }

  /** The main balls of a record: everything but its last value. */
  function MainPart(r: seq<int>): seq<int>
    requires |r| > 0
  {
    r[..|r| - 1]
  }

  /** The main parts of records[..k], concatenated. */
  function Flatten(records: seq<seq<int>>, k: nat): seq<int>
    requires k <= |records|
    requires forall j :: 0 <= j < |records| ==> |records[j]| > 0
    decreases k
  {
    if k == 0 then [] else Flatten(records, k - 1) + MainPart(records[k - 1])
  }

  /** How many main balls the first k chunks take: min(7k, n). */
  function Consumed(n: nat, k: nat): nat {
    if BallsPerDraw * k <= n then BallsPerDraw * k else n
  }

  /** Every record of a page holds its supplementary value, so it is never empty. */
  lemma PageRecordsNonEmpty(ball: seq<int>, powerball: seq<int>)
    ensures forall j :: 0 <= j < |PageRecords(ball, powerball)| ==> |PageRecords(ball, powerball)[j]| > 0
  {
  }

  /** The main parts of the first k records are the first min(7k, n) main balls. */
  lemma {:induction false} FlattenPrefix(ball: seq<int>, powerball: seq<int>, k: nat)
    requires k <= DrawCount(|ball|)
    ensures forall j :: 0 <= j < |PageRecords(ball, powerball)| ==> |PageRecords(ball, powerball)[j]| > 0
    ensures Flatten(PageRecords(ball, powerball), k) == ball[..Consumed(|ball|, k)]
    decreases k
  {
    PageRecordsNonEmpty(ball, powerball);
    var records := PageRecords(ball, powerball);
    if k > 0 {
      FlattenPrefix(ball, powerball, k - 1);
      var r := records[k - 1];
      assert MainPart(r) == ball[Consumed(|ball|, k - 1) .. Consumed(|ball|, k)];
      assert ball[..Consumed(|ball|, k - 1)] + ball[Consumed(|ball|, k - 1) .. Consumed(|ball|, k)]
          == ball[..Consumed(|ball|, k)];
    }
  }

  /**
   * No main ball is lost or reordered: the main parts of a page's records,
   * concatenated, give back the page's main-ball list.
   */
  lemma MainBallsRoundTrip(ball: seq<int>, powerball: seq<int>)
    ensures forall j :: 0 <= j < |PageRecords(ball, powerball)| ==> |PageRecords(ball, powerball)[j]| > 0
    ensures Flatten(PageRecords(ball, powerball), DrawCount(|ball|)) == ball
  {
    FlattenPrefix(ball, powerball, DrawCount(|ball|));
  }

  /**
   * Record widths: a record is full (eight values) exactly when its chunk
   * has seven main balls, which holds for every record but the last, and
   * for the last exactly when n is a multiple of seven.
   */
  lemma RecordWidths(ball: seq<int>, powerball: seq<int>, k: nat)
    requires k < DrawCount(|ball|)
    ensures |DrawRecord(ball, powerball, k)| == RecordWidth <==> BallsPerDraw * (k + 1) <= |ball|
    ensures k + 1 < DrawCount(|ball|) ==> |DrawRecord(ball, powerball, k)| == RecordWidth
    ensures k + 1 == DrawCount(|ball|) ==>
              (|DrawRecord(ball, powerball, k)| == RecordWidth <==> |ball| % BallsPerDraw == 0)
  {
  }

  /** The records of all pages answered with status 200, page after page. */
  function AllRecords(pages: seq<Page>): (records: seq<seq<int>>)
    decreases |pages|
  {
    if pages == [] then []
    else
      var last := pages[|pages| - 1];
      AllRecords(pages[..|pages| - 1]) + (if last.status == StatusOk then PageRecords(last.ball, last.powerball) else [])
  }

  /**
   * The outer scraping loop over the years' pages: a page whose response
   * is not 200 is skipped, the records of every other page are appended.
   */
  method CollectDraws(pages: seq<Page>) returns (allData: seq<seq<int>>)
    ensures allData == AllRecords(pages)
  {
    allData := [];
    for p := 0 to |pages|
      invariant allData == AllRecords(pages[..p])
    {
      assert pages[..p + 1][..p] == pages[..p];
      if pages[p].status == StatusOk {
        var records := ExtractPage(pages[p].ball, pages[p].powerball);
        allData := allData + records;
      }
    }
    assert pages[..|pages|] == pages;
  }
}
