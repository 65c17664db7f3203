/**
 * What `main` does for one group of home airports, and the program's concrete cases.
 * The output file name (built from the wall clock) and the file write are not modelled.
 */
module Pipeline {
  import opened Wrappers
  import opened Itineraries
  import opened KiwiRequest
  import opened KiwiResults
  import opened Export

  /** The entry every itinerary ends up with when each search starts from an empty offer list. */
  function SearchedEntries(options: seq<Itinerary>, api: Payload -> Option<seq<RawRecord>>): seq<Entry>
  {
    seq(|options|, k requires 0 <= k < |options| =>
      Entry(options[k], ResultsAfterSearch(api(BuildPayload(options[k])), [])))
  }

  /**
   * Generate the group's itineraries, wrap each in a `BestFlights` with no offers, search them all
   * and build the table `to_csv` writes.
   */
  method SearchGroupAndExport(usPorts: seq<Airport>, japanPorts: seq<Airport>,
                              dateFrom: CalendarDate, dateTo: CalendarDate,
                              api: Payload -> Option<seq<RawRecord>>)
    returns (table: seq<Row>)
    ensures table == CsvTable(SearchedEntries(AllFlightOptions(usPorts, japanPorts, dateFrom, dateTo), api))
  {
    var options := AllFlightOptions(usPorts, japanPorts, dateFrom, dateTo);
    var plans: seq<BestFlights> := [];
    for i := 0 to |options|
      invariant |plans| == i
      invariant forall k :: 0 <= k < i ==> fresh(plans[k])
      invariant forall k :: 0 <= k < i ==> plans[k].flightPlan == options[k] && plans[k].searchResults == []
    {
      var entry := new BestFlights(options[i], []);
      plans := plans + [entry];
    }
    var batch := new AllOptionsForJapan(plans);
    batch.SearchAndSetBestFlights(api);
    var status;
    table, status := batch.ToCsv();
    assert batch.Entries() == SearchedEntries(options, api);
  }

  /** With no offers anywhere, the table is the header alone. */
  lemma {:induction false} NoOffersOnlyHeader(entries: seq<Entry>)
    requires forall k :: 0 <= k < |entries| ==> entries[k].offers == []
    ensures CsvTable(entries) == [CsvHeader]
  {
    if entries != [] {
      NoOffersOnlyHeader(entries[1..]);
      assert OfferCount(entries) == OfferCount(entries[1..]);
    }
  }

  const Departure: CalendarDate := Date(2024, 3, 22)
  const Return: CalendarDate := Date(2024, 4, 1)
  const SocalPorts: seq<Airport> := ["LAX"]
  const JapanPorts: seq<Airport> := ["HND", "NRT", "FUK", "KIX", "NGO", "CTS"]

  /** One home airport and six Japanese airports give 36 itineraries. */
  lemma SocalOptionCount()
    ensures |AllFlightOptions(SocalPorts, JapanPorts, Departure, Return)| == 36
  {
  }

  /** LAX with HND and NRT gives the four itineraries in comprehension order. */
  lemma LaxHndNrtOptions()
    ensures AllFlightOptions(["LAX"], ["HND", "NRT"], Departure, Return) == [
      Itinerary("LAX", "HND", "HND", "LAX", Departure, Return),
      Itinerary("LAX", "HND", "NRT", "LAX", Departure, Return),
      Itinerary("LAX", "NRT", "HND", "LAX", Departure, Return),
      Itinerary("LAX", "NRT", "NRT", "LAX", Departure, Return)]
  {
    var us, jp := ["LAX"], ["HND", "NRT"];
    AllFlightOptionsAt(us, jp, Departure, Return, 0, 0, 0, 0);
    AllFlightOptionsAt(us, jp, Departure, Return, 0, 0, 1, 0);
    AllFlightOptionsAt(us, jp, Departure, Return, 0, 1, 0, 0);
    AllFlightOptionsAt(us, jp, Departure, Return, 0, 1, 1, 0);
  }

  /** When the service finds nothing for any of them, only the header is exported. */
  lemma LaxHndNrtNothingFound()
    ensures CsvTable(SearchedEntries(AllFlightOptions(["LAX"], ["HND", "NRT"], Departure, Return),
                                     p => Some([])))
         == [CsvHeader]
  {
    var entries := SearchedEntries(AllFlightOptions(["LAX"], ["HND", "NRT"], Departure, Return), p => Some([]));
    assert ResultsAfterSearch(Some([]), []) == [];
    NoOffersOnlyHeader(entries);
  }

  lemma DepartureFormat()
    ensures DateToKiwiFormat(Departure) == "22/03/2024"
  {
  }

  /** The request for LAX -> HND, NRT -> LAX. */
  lemma LaxPayload()
    ensures BuildPayload(Itinerary("LAX", "HND", "NRT", "LAX", Departure, Return)) == Payload([
      Leg(5, "quality", "USD", "HND", "LAX", "22/03/2024", "22/03/2024", 1),
      Leg(5, "quality", "USD", "LAX", "NRT", "01/04/2024", "01/04/2024", 1)])
  {
    assert DateToKiwiFormat(Departure) == "22/03/2024";
    assert DateToKiwiFormat(Return) == "01/04/2024";
  }

  /** A complete record is copied over field by field. */
  lemma ExtractCompleteRecord()
    ensures ExtractFlightInfo(map["price" := Int(450), "duration" := Int(36000),
                                  "quality" := Real(7.5), "deep_link" := Str("http://x")])
         == Success(Offer(Int(450), Int(36000), Real(7.5), Str("http://x")))
  {
  }

  /** A list or dictionary as the duration cannot be divided; as the price it is copied over. */
  lemma ExtractStructuredValues()
    ensures ExtractFlightInfo(map["price" := Int(450), "duration" := Arr([Int(36000)]),
                                  "quality" := Real(7.5), "deep_link" := Str("http://x")])
         == Failure(NotNumeric("duration"))
    ensures ExtractFlightInfo(map["price" := Obj(map["amount" := Int(450)]), "duration" := Int(36000),
                                  "quality" := Real(7.5), "deep_link" := Str("http://x")])
         == Success(Offer(Obj(map["amount" := Int(450)]), Int(36000), Real(7.5), Str("http://x")))
  {
  }

  /** A record without a price is an error, not an offer with a default price. */
  lemma ExtractWithoutPrice()
    ensures ExtractFlightInfo(map["duration" := Int(36000), "quality" := Real(7.5),
                                  "deep_link" := Str("http://x")])
         == Failure(MissingKey("price"))
  {
  }
}
