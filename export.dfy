/**
 * The batch of searched itineraries and its table (`AllOptionsForJapan`, its
 * `search_and_set_best_flights`, and the header and rows of `to_csv` in main.py).
 * Writing the file and the CSV quoting are not modelled; the table is returned instead.
 */
module Export {
  import opened Wrappers
  import opened Seqs
  import opened Itineraries
  import opened KiwiRequest
  import opened KiwiResults

  /** One cell as handed to `csv.writer`, before it is turned into text. */
  datatype Cell = Text(text: string) | DateCell(date: CalendarDate) | ValueCell(value: Value)

  type Row = seq<Cell>

  const CsvHeader: Row := [
    Text("Home Out"), Text("Dest In"), Text("Dest Out"), Text("Home In"),
    Text("Date From"), Text("Date To"),
    Text("Price"), Text("Duration"), Text("Quality"), Text("Link")
  ]

  /** What `to_csv` reads of one `BestFlights`. */
  datatype Entry = Entry(plan: Itinerary, offers: seq<Offer>)

  /** The six itinerary fields, then the offer's four. */
  function OfferRow(plan: Itinerary, offer: Offer): Row
  {
    [Text(plan.homeOut), Text(plan.destIn), Text(plan.destOut), Text(plan.homeIn),
     DateCell(plan.dateFrom), DateCell(plan.dateTo),
     ValueCell(offer.price), ValueCell(offer.durationSeconds), ValueCell(offer.quality), ValueCell(offer.link)]
  }

  /** `for flight_info in plan.search_results`: one row per offer of one entry. */
  function EntryRows(entry: Entry): seq<Row>
  {
    seq(|entry.offers|, o requires 0 <= o < |entry.offers| => OfferRow(entry.plan, entry.offers[o]))
  }

  function EntryBlocks(entries: seq<Entry>): seq<seq<Row>>
  {
    seq(|entries|, e requires 0 <= e < |entries| => EntryRows(entries[e]))
  }

  /** The `rows` comprehension: `for plan in ... for flight_info in plan.search_results`. */
  function DataRows(entries: seq<Entry>): seq<Row>
  {
    Flatten(EntryBlocks(entries))
  }

  /** The number of offers over all entries. */
  function OfferCount(entries: seq<Entry>): nat
  {
    if entries == [] then 0 else |entries[0].offers| + OfferCount(entries[1..])
  }

  lemma {:induction false} EntryBlocksLength(entries: seq<Entry>)
    ensures TotalLength(EntryBlocks(entries)) == OfferCount(entries)
  {
    if entries != [] {
      EntryBlocksLength(entries[1..]);
      assert EntryBlocks(entries)[1..] == EntryBlocks(entries[1..]);
    }
  }

  /**
   * The header row followed by the data rows: what `to_csv` writes. Its length is one plus the
   * number of offers over all entries, so an entry without offers adds no row.
   */
  function CsvTable(entries: seq<Entry>): (table: seq<Row>)
    ensures |table| == 1 + OfferCount(entries)
    ensures table[0] == CsvHeader
    ensures forall i :: 0 <= i < |table| ==> |table[i]| == 10
  {
    EntryBlocksLength(entries);
    assert forall i :: 0 <= i < |DataRows(entries)| ==> |DataRows(entries)[i]| == 10 by {
      forall i | 0 <= i < |DataRows(entries)| ensures |DataRows(entries)[i]| == 10 {
        FlattenMember(EntryBlocks(entries), DataRows(entries)[i]);
      }
    }
    [CsvHeader] + DataRows(entries)
  }

  /** The position of offer `o` of entry `e` in the table: after the header and the earlier entries' rows. */
  function RowIndex(entries: seq<Entry>, e: nat, o: nat): nat
    requires e <= |entries|
  {
    1 + OfferCount(entries[..e]) + o
  }

  /**
   * Rows are grouped by entry in list order, then by offer in list order: offer `o` of entry `e`
   * is on row 1 + (offers of the entries before e) + o.
   */
  lemma CsvRowAt(entries: seq<Entry>, e: nat, o: nat)
    requires e < |entries| && o < |entries[e].offers|
    ensures RowIndex(entries, e, o) < |CsvTable(entries)|
    ensures CsvTable(entries)[RowIndex(entries, e, o)] == OfferRow(entries[e].plan, entries[e].offers[o])
  {
    var blocks := EntryBlocks(entries);
    FlattenAt(blocks, e, o);
    assert blocks[..e] == EntryBlocks(entries[..e]);
    EntryBlocksLength(entries[..e]);
  }

  /** That row holds the itinerary's six fields and the offer's price, duration, quality and link. */
  lemma CsvRowFields(entries: seq<Entry>, e: nat, o: nat)
    requires e < |entries| && o < |entries[e].offers|
    ensures RowIndex(entries, e, o) < |CsvTable(entries)|
    ensures var row := CsvTable(entries)[RowIndex(entries, e, o)];
            var plan, offer := entries[e].plan, entries[e].offers[o];
            row[..4] == [Text(plan.homeOut), Text(plan.destIn), Text(plan.destOut), Text(plan.homeIn)]
            && row[4] == DateCell(plan.dateFrom) && row[5] == DateCell(plan.dateTo)
            && row[6] == ValueCell(offer.price) && row[7] == ValueCell(offer.durationSeconds)
            && row[8] == ValueCell(offer.quality) && row[9] == ValueCell(offer.link)
  {
    CsvRowAt(entries, e, o);
  }

  /** The rows of `a + b` are the rows of `a` followed by those of `b`. */
  lemma DataRowsAppend(a: seq<Entry>, b: seq<Entry>)
    ensures DataRows(a + b) == DataRows(a) + DataRows(b)
  {
    assert EntryBlocks(a + b) == EntryBlocks(a) + EntryBlocks(b);
    FlattenAppend(EntryBlocks(a), EntryBlocks(b));
  }

  /** An entry whose search found nothing contributes no row, and no placeholder either. */
  lemma EmptyEntryAddsNoRows(entries: seq<Entry>, e: nat)
    requires e < |entries| && entries[e].offers == []
    ensures DataRows(entries) == DataRows(entries[..e]) + DataRows(entries[e + 1..])
  {
    assert entries == entries[..e] + [entries[e]] + entries[e + 1..];
    DataRowsAppend(entries[..e] + [entries[e]], entries[e + 1..]);
    DataRowsAppend(entries[..e], [entries[e]]);
    assert EntryBlocks([entries[e]]) == [[]];
  }

  /** Every data row comes from some entry and one of its offers. */
  lemma CsvRowOrigin(entries: seq<Entry>, row: Row)
    requires row in DataRows(entries)
    ensures exists e, o :: 0 <= e < |entries| && 0 <= o < |entries[e].offers|
                           && row == OfferRow(entries[e].plan, entries[e].offers[o])
  {
    FlattenMember(EntryBlocks(entries), row);
    var e :| 0 <= e < |entries| && row in EntryBlocks(entries)[e];
    var o :| 0 <= o < |entries[e].offers| && EntryRows(entries[e])[o] == row;
  }

  /** `AllOptionsForJapan`: the entries of one batch. */
  class AllOptionsForJapan {
    const allFlightPlans: seq<BestFlights>

    constructor (plans: seq<BestFlights>)
      ensures allFlightPlans == plans
    {
      allFlightPlans := plans;
    }

    /** The itinerary and current offers of each entry, in list order. */
    function Entries(): (entries: seq<Entry>)
      reads allFlightPlans
      ensures |entries| == |allFlightPlans|
      ensures forall k :: 0 <= k < |entries| ==>
                entries[k].plan == allFlightPlans[k].flightPlan
                && entries[k].offers == allFlightPlans[k].searchResults
    {
      seq(|allFlightPlans|, k reads allFlightPlans requires 0 <= k < |allFlightPlans| =>
        Entry(allFlightPlans[k].flightPlan, allFlightPlans[k].searchResults))
    }

    /**
     * `search_and_set_best_flights`, run one search after the other. The program runs them on two
     * threads with a pause after each; each search writes only its own entry, so the order does
     * not change what every entry ends up holding.
     */
    method SearchAndSetBestFlights(api: Payload -> Option<seq<RawRecord>>)
      modifies allFlightPlans
      ensures forall k :: 0 <= k < |allFlightPlans| ==>
                allFlightPlans[k].searchResults
                == ResultsAfterSearch(api(BuildPayload(allFlightPlans[k].flightPlan)),
                                      old(allFlightPlans[k].searchResults))
    {
      for i := 0 to |allFlightPlans|
        invariant forall k :: 0 <= k < |allFlightPlans| ==>
                    allFlightPlans[k].searchResults
                    == if allFlightPlans[k] in allFlightPlans[..i]
                       then ResultsAfterSearch(api(BuildPayload(allFlightPlans[k].flightPlan)),
                                               old(allFlightPlans[k].searchResults))
                       else old(allFlightPlans[k].searchResults)
      {
        var current := allFlightPlans[i];
        ResultsAfterSearchIdempotent(api(BuildPayload(current.flightPlan)), old(current.searchResults));
        var _ := current.SearchAndSetFlights(api);
        assert allFlightPlans[..i + 1] == allFlightPlans[..i] + [current];
      }
    }

    /** `to_csv`: the header and the rows it writes, and its return value 0. */
    method ToCsv() returns (table: seq<Row>, status: int)
      ensures table == CsvTable(Entries())
      ensures status == 0
    {
      table := CsvTable(Entries());
      status := 0;
    }
  }
}
