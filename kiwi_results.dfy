/**
 * Turning the search response into offers and storing them on the itinerary's entry
 * (`KiwiFlightInfo`, `extract_flight_info`, `set_flights` and `search_and_set_flights` in main.py).
 */
module KiwiResults {
  import opened Wrappers
  import opened Itineraries
  import opened KiwiRequest

  /** A JSON value as `json.loads` gives it back: a scalar, a list or a dictionary. */
  datatype Value =
    | Int(i: int) | Real(r: real) | Str(s: string) | Bool(b: bool) | Null
    | Arr(items: seq<Value>) | Obj(fields: map<string, Value>)

  /** One result record of the response: a dictionary from field name to value. */
  type RawRecord = map<string, Value>

  /**
   * `KiwiFlightInfo`. The duration is kept in the seconds the response gives; the program's
   * conversion to hours rounded to two decimals is floating point and is not modelled.
   */
  datatype Offer = Offer(price: Value, durationSeconds: Value, quality: Value, link: Value)

  /** What `extract_flight_info` and `set_flights` raise. */
  datatype ExtractError =
    | MissingKey(key: string)   // KeyError on the record lookup
    | NotNumeric(key: string)   // TypeError from dividing a non-number by 3600

  datatype SearchError =
    | NoResponse                      // the fetch gave None, which cannot be iterated
    | Extraction(cause: ExtractError)

  /** Values Python can divide by 3600 (`bool` is a subtype of `int`). */
  predicate IsNumeric(v: Value)
  {
    v.Int? || v.Real? || v.Bool?
  }

  predicate HasOfferFields(raw: RawRecord)
  {
    "price" in raw && "duration" in raw && "quality" in raw && "deep_link" in raw
  }

  /**
   * The fields are read in the order price, duration, quality, deep_link, and the duration is
   * divided right after it is read, so the first of these steps to fail is the error raised.
   */
  function ExtractFlightInfo(raw: RawRecord): (r: Result<Offer, ExtractError>)
    ensures r.Success? <==> HasOfferFields(raw) && IsNumeric(raw["duration"])
    ensures r.Success? ==> r.value.price == raw["price"] && r.value.durationSeconds == raw["duration"]
                           && r.value.quality == raw["quality"] && r.value.link == raw["deep_link"]
    ensures "price" !in raw ==> r == Failure(MissingKey("price"))
    ensures r.Failure? && r.error.MissingKey? ==> r.error.key !in raw
  {
    if "price" !in raw then Failure(MissingKey("price"))
    else if "duration" !in raw then Failure(MissingKey("duration"))
    else if !IsNumeric(raw["duration"]) then Failure(NotNumeric("duration"))
    else if "quality" !in raw then Failure(MissingKey("quality"))
    else if "deep_link" !in raw then Failure(MissingKey("deep_link"))
    else Success(Offer(raw["price"], raw["duration"], raw["quality"], raw["deep_link"]))
  }

  /** The record the search service would send for `offer`. */
  function RecordOf(offer: Offer): RawRecord
  {
    map["price" := offer.price, "duration" := offer.durationSeconds,
        "quality" := offer.quality, "deep_link" := offer.link]
  }

  /** Extraction recovers every offer whose duration is a number from its record. */
  lemma ExtractRecordOf(offer: Offer)
    requires IsNumeric(offer.durationSeconds)
    ensures ExtractFlightInfo(RecordOf(offer)) == Success(offer)
  {
  }

  /** Fields other than the four read are ignored. */
  lemma ExtractIgnoresOtherFields(raw: RawRecord, extra: RawRecord)
    requires "price" !in extra && "duration" !in extra && "quality" !in extra && "deep_link" !in extra
    ensures ExtractFlightInfo(raw + extra) == ExtractFlightInfo(raw)
  {
  }

  /**
   * `[self.extract_flight_info(i) for i in kiwi_result]`: all records extracted in order, or the
   * error of the first record that fails.
   */
  function ExtractAll(raws: seq<RawRecord>): (r: Result<seq<Offer>, ExtractError>)
    ensures r.Success? <==> forall i :: 0 <= i < |raws| ==> ExtractFlightInfo(raws[i]).Success?
    ensures r.Success? ==> |r.value| == |raws|
    ensures r.Success? ==> forall i :: 0 <= i < |raws| ==> ExtractFlightInfo(raws[i]) == Success(r.value[i])
    ensures r.Failure? ==> exists i :: 0 <= i < |raws| && ExtractFlightInfo(raws[i]) == Failure(r.error)
                                       && forall j :: 0 <= j < i ==> ExtractFlightInfo(raws[j]).Success?
  {
    if raws == [] then Success([])
    else
      match ExtractFlightInfo(raws[0])
      case Failure(e) => Failure(e)
      case Success(offer) =>
        match ExtractAll(raws[1..])
        case Failure(e) =>
          assert forall i :: 1 <= i < |raws| ==> raws[i] == raws[1..][i - 1];
          Failure(e)
        case Success(offers) =>
          assert forall i :: 1 <= i < |raws| ==> raws[i] == raws[1..][i - 1];
          Success([offer] + offers)
  }

  /**
   * What a search leaves in `search_results`: the extracted offers when the fetch answered and every
   * record could be extracted, otherwise the list that was there before.
   */
  function ResultsAfterSearch(fetched: Option<seq<RawRecord>>, current: seq<Offer>): seq<Offer>
  {
    match fetched
    case None => current
    case Some(raws) =>
      match ExtractAll(raws)
      case Success(offers) => offers
      case Failure(_) => current
  }

  predicate SearchSucceeds(fetched: Option<seq<RawRecord>>)
  {
    fetched.Some? && ExtractAll(fetched.value).Success?
  }

  /** A successful search stores one offer per record, record i giving offer i. */
  lemma SearchStoresEveryRecord(raws: seq<RawRecord>, current: seq<Offer>)
    requires SearchSucceeds(Some(raws))
    ensures |ResultsAfterSearch(Some(raws), current)| == |raws|
    ensures forall i :: 0 <= i < |raws| ==>
              ExtractFlightInfo(raws[i]) == Success(ResultsAfterSearch(Some(raws), current)[i])
  {
  }

  /** A failed search keeps the previous results. */
  lemma FailedSearchKeepsResults(fetched: Option<seq<RawRecord>>, current: seq<Offer>)
    requires fetched.None? || exists i :: 0 <= i < |fetched.value| && ExtractFlightInfo(fetched.value[i]).Failure?
    ensures ResultsAfterSearch(fetched, current) == current
  {
  }

  /** Repeating the same search changes nothing more. */
  lemma ResultsAfterSearchIdempotent(fetched: Option<seq<RawRecord>>, current: seq<Offer>)
    ensures ResultsAfterSearch(fetched, ResultsAfterSearch(fetched, current))
         == ResultsAfterSearch(fetched, current)
  {
  }

  /**
   * `BestFlights`: one itinerary and the offers found for it. The itinerary is never reassigned;
   * `searchResults` is replaced by a successful search.
   */
  class BestFlights {
    const flightPlan: Itinerary
    var searchResults: seq<Offer>

    constructor (plan: Itinerary, results: seq<Offer>)
      ensures flightPlan == plan && searchResults == results
    {
      flightPlan := plan;
      searchResults := results;
    }

    /**
     * `set_flights`: the comprehension is evaluated in full before the assignment, so either every
     * record is extracted and stored, or the method raises and `searchResults` is untouched.
     */
    method SetFlights(kiwiResult: Option<seq<RawRecord>>) returns (outcome: Outcome<SearchError>)
      modifies this
      ensures outcome.Pass? <==> SearchSucceeds(kiwiResult)
      ensures kiwiResult.None? ==> outcome == Fail(NoResponse)
      ensures kiwiResult.Some? && ExtractAll(kiwiResult.value).Failure? ==>
                outcome == Fail(Extraction(ExtractAll(kiwiResult.value).error))
      ensures searchResults == ResultsAfterSearch(kiwiResult, old(searchResults))
    {
      match kiwiResult
      case None =>
        outcome := Fail(NoResponse);
      case Some(raws) =>
        var extracted := ExtractAll(raws);
        match extracted
        case Failure(e) =>
          outcome := Fail(Extraction(e));
        case Success(offers) =>
          searchResults := offers;
          outcome := Pass;
    }

    /**
     * `search_and_set_flights`: fetch the results for this itinerary's payload through `api` (which
     * stands for the HTTP call and answers None where `get_raw_kiwi_results` catches an error), then
     * store them. Gives `Some(true)` for Python's `True` and `None` when `set_flights` raised.
     */
    method SearchAndSetFlights(api: Payload -> Option<seq<RawRecord>>) returns (r: Option<bool>)
      modifies this
      ensures r == (if SearchSucceeds(api(BuildPayload(flightPlan))) then Some(true) else None)
      ensures searchResults == ResultsAfterSearch(api(BuildPayload(flightPlan)), old(searchResults))
    {
      var rawTop5Itineraries := api(BuildPayload(flightPlan));
      var outcome := SetFlights(rawTop5Itineraries);
      if outcome.Pass? {
        r := Some(true);
      } else {
        r := None;
      }
    }
  }
}
