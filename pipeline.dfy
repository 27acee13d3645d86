/**
 * The data preparation of script.py end to end: pages to records, records
 * to the eight-column table, cleaning, and alternate-row pairing.
 */
module Pipeline {
  import opened Optional
  import Scrape
  import Table
  import Pairing

  /** Every scraped record has between two and eight values. */
  lemma {:induction false} AllRecordsWidths(pages: seq<Scrape.Page>)
    ensures forall i :: 0 <= i < |Scrape.AllRecords(pages)| ==>
              2 <= |Scrape.AllRecords(pages)[i]| <= Scrape.RecordWidth
    decreases |pages|
  {
    if pages != [] {
      AllRecordsWidths(pages[..|pages| - 1]);
    }
  }

  /** Input and target rows for training, or None when the table cannot be built. */
  function TrainingPairs(pages: seq<Scrape.Page>): Option<Pairing.Pairs<seq<int>>> {
    match Table.BuildTable(Scrape.AllRecords(pages))
    case None => None
    case Some(table) => Some(Pairing.AlternatePairs(Table.DropIncomplete(table)))
  }

  /**
   * Training rows are exactly the full draws: with F the full records
   * (seven main balls and a supplementary value) in scraping order, there
   * are |F| / 2 pairs and pair i is F[2i] followed by F[2i + 1]. The
   * preparation fails only when there are records and none is full.
   */
  lemma PreparedPairs(pages: seq<Scrape.Page>)
    ensures var records := Scrape.AllRecords(pages);
            TrainingPairs(pages).None? <==>
              records != [] && forall i :: 0 <= i < |records| ==> |records[i]| < Scrape.RecordWidth
    ensures TrainingPairs(pages).Some? ==>
              var full := Table.FullRecords(Scrape.AllRecords(pages));
              var pairs := TrainingPairs(pages).value;
              && |pairs.inputs| == |full| / 2
              && |pairs.targets| == |full| / 2
              && forall i :: 0 <= i < |full| / 2 ==>
                   pairs.inputs[i] == full[2 * i] && pairs.targets[i] == full[2 * i + 1]
  {
    AllRecordsWidths(pages);
    Table.BuildThenClean(Scrape.AllRecords(pages));
    if TrainingPairs(pages).Some? {
      Pairing.AlternatePairsShape(Table.FullRecords(Scrape.AllRecords(pages)));
    }
  }
}
