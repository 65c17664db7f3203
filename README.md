# fly-japan: a Dafny model of the itinerary search script

The script (`main.py`) enumerates round trips between home airports and Japanese airports,
asks a flight-search service for the best offers of each round trip, and exports one table
row per (itinerary, offer) pair. This project models the data shaping underneath the I/O:

- **Itineraries** (`itineraries.dfy`): calendar dates, the `FlightItinerary` record and
  `all_flight_options`, the four-way Cartesian product written as one function per `for` of
  the comprehension, flattened with `Seqs.Flatten` (`seqs.dfy`).
- **KiwiRequest** (`kiwi_request.dfy`): `date_to_kiwi_format` (`%d/%m/%Y`) with its parse-back
  inverse, and the two-leg request payload as a `Payload` of `Leg` records, with the itinerary
  recovered from the payload as its partner.
- **KiwiResults** (`kiwi_results.dfy`): a result record as a map from field name to JSON value
  (a scalar, a list or a dictionary),
  `extract_flight_info` and the list comprehension of `set_flights` as functions returning a
  `Result`, and `BestFlights` as a class whose `searchResults` field `SetFlights` and
  `SearchAndSetFlights` replace all-or-nothing. The HTTP call is a function parameter
  `api: Payload -> Option<seq<RawRecord>>`; `None` stands for every error that
  `get_raw_kiwi_results` catches and turns into `None`.
- **Export** (`export.dfy`): the header and the row comprehension of `to_csv` as the pure
  function `CsvTable`, and `AllOptionsForJapan` as a class whose batch search runs the
  per-itinerary searches one after the other.
- **Pipeline** (`pipeline.dfy`): one group of `main` (generate, wrap, search, export) and the
  program's concrete cases.

Three behaviours of the code worth stating:

- A record without a required field makes `extract_flight_info` raise. The raise happens inside
  `search_and_set_flights`'s `try` (main.py:97-106), so it is caught there like a network error:
  the search returns `None` and `search_results` keeps its previous value.
- A failed search leaves `search_results` as it was. It is empty afterwards only because `main`
  starts every entry with an empty list.
- The response is iterated as one flat list of records (main.py:94).

## Model

| member | source | states |
|---|---|---|
| `Itineraries.AllFlightOptions` | main.py:176-185 | exactly m·m·n·n itineraries, m = len(us) and n = len(jp); none when either airport list is empty |
| `Itineraries.AllFlightOptionsAt` | main.py:179-185 | the itinerary at index ((i·n + j)·n + k)·m + l is (us[i], jp[j], jp[k], us[l]) with the given dates: u_out outermost, u_in innermost |
| `Itineraries.AllFlightOptionsMember` | main.py:180-184 | an itinerary is generated iff its home airports are in us, its destination airports in jp and its dates are the arguments, so pairs with dest_in == dest_out or home_out == home_in are kept |
| `KiwiRequest.DateToKiwiFormat` | main.py:34-35 | day and month two digits each, '/' at positions 2 and 5, year numeral after position 6, all other characters digits |
| `KiwiRequest.KiwiDateShape` | main.py:35 | a date with a four-digit year formats to 10 characters with '/' at positions 2 and 5 |
| `KiwiRequest.KiwiDateRoundTrip` | main.py:34-35 | parsing the formatted date gives back the same date |
| `KiwiRequest.KiwiDateInjective` | main.py:34-35 | distinct dates format to distinct strings |
| `KiwiRequest.BuildPayload` | main.py:41-64 | two legs: home_out -> dest_in on date_from, dest_out -> home_in on date_to, each with both dates equal; every leg has limit 5, sort "quality", curr "USD", adults 1 |
| `KiwiRequest.PayloadRoundTrip` | main.py:41-64 | the itinerary can be read back from its payload |
| `KiwiRequest.BuildPayloadInjective` | main.py:41-64 | distinct itineraries give distinct payloads |
| `KiwiResults.ExtractFlightInfo` | main.py:85-91 | succeeds iff price, duration, quality and deep_link are all present and the duration is numeric (apart from integer durations too large for a float, see Left out); then price, duration, quality and link are copied verbatim; a missing price is the error MissingKey("price"); a missing-key error names a key that is absent |
| `KiwiResults.ExtractRecordOf` | main.py:85-91 | extracting the record of an offer gives that offer back |
| `KiwiResults.ExtractIgnoresOtherFields` | main.py:85-91 | fields other than the four read do not change the extraction |
| `KiwiResults.ExtractAll` | main.py:94 | succeeds iff every record extracts; then one offer per record, offer i being the extraction of record i; otherwise the error of the first failing record |
| `KiwiResults.SearchStoresEveryRecord` | main.py:94 | after a successful search the results have the raw list's length and element i is the extraction of raw element i |
| `KiwiResults.FailedSearchKeepsResults` | main.py:93-106 | a None response or a record that fails to extract leaves the results as they were |
| `KiwiResults.ResultsAfterSearchIdempotent` | main.py:93-106 | running the same search twice leaves the same results as running it once |
| `KiwiResults.BestFlights.constructor` | main.py:29-32 | the entry holds the given itinerary and results |
| `KiwiResults.BestFlights.SetFlights` | main.py:93-94 | passes iff the response is a list whose records all extract; a None response fails with NoResponse, a bad record with its extraction error; searchResults becomes the extracted list on success and is unchanged otherwise |
| `KiwiResults.BestFlights.SearchAndSetFlights` | main.py:96-106 | fetches with this itinerary's payload; returns True exactly when the fetch answered and every record extracted, None otherwise; searchResults as SetFlights leaves it |
| `Export.CsvTable` | main.py:128-167 | the first row is the fixed 10-column header, there is one further row per offer over all entries, and every row has 10 fields |
| `Export.CsvRowAt` | main.py:149-167 | offer o of entry e is at row 1 + (offers of the entries before e) + o: grouped by entry in list order, then by offer in list order |
| `Export.CsvRowFields` | main.py:149-167 | that row holds home_out, dest_in, dest_out, home_in, date_from, date_to of the itinerary and price, duration, quality, link of the offer |
| `Export.DataRowsAppend` | main.py:162-163 | the rows of `a + b` are the rows of `a` followed by those of `b` |
| `Export.EmptyEntryAddsNoRows` | main.py:162-163 | an entry without offers contributes no row, not even a placeholder |
| `Export.CsvRowOrigin` | main.py:149-167 | every data row is the row of some entry and one of its offers |
| `Export.AllOptionsForJapan.constructor` | main.py:109-111 | the batch holds the given entries |
| `Export.AllOptionsForJapan.Entries` | main.py:162-166 | the abstraction that `ToCsv`'s contract uses: the itinerary and current offers of each entry, in list order, as the rows comprehension reads them |
| `Export.AllOptionsForJapan.SearchAndSetBestFlights` | main.py:113-126 | afterwards every entry holds what its own search leaves it, whatever the other searches did |
| `Export.AllOptionsForJapan.ToCsv` | main.py:128-173 | the table is the header and rows of the entries' current offers, and the return value is 0 |
| `Pipeline.SearchGroupAndExport` | main.py:201-214 | generating, wrapping with empty offers, searching and exporting one group gives the table of each itinerary's own search result |
| `Pipeline.NoOffersOnlyHeader` | main.py:130-167 | when no entry has an offer, the table is the header alone |
| `Pipeline.SocalOptionCount` | main.py:193-201 | ["LAX"] with the six Japanese airports gives 36 itineraries |
| `Pipeline.LaxHndNrtOptions` | main.py:176-185 | ["LAX"] with ["HND", "NRT"] gives the four itineraries HND/HND, HND/NRT, NRT/HND, NRT/NRT in that order |
| `Pipeline.LaxHndNrtNothingFound` | main.py:149-167 | if the service returns no results for those four, only the header is exported |
| `Pipeline.DepartureFormat` | main.py:34-35 | 22 March 2024 is formatted "22/03/2024" |
| `Pipeline.LaxPayload` | main.py:41-64 | the payload for LAX -> HND, NRT -> LAX with the program's dates, leg by leg |
| `Pipeline.ExtractCompleteRecord` | main.py:85-91 | a complete record is copied over field by field |
| `Pipeline.ExtractStructuredValues` | main.py:86-91 | a list as the duration is the error NotNumeric("duration"); a dictionary as the price is copied into the offer unchanged |
| `Pipeline.ExtractWithoutPrice` | main.py:85-91 | a record without a price is the error MissingKey("price") |

## Left out

- The HTTP request (`requests.post`, `raise_for_status`), `json.dumps`/`json.loads`, the URL, the headers and the API key from `config` (main.py:66-79): network I/O and foreign libraries. The service is the parameter `api`, a function from the payload to a list of records or `None`.
- `KiwiResults.BestFlights.SearchAndSetFlights`: the service is modelled as a deterministic function of the payload; a real service may answer the same request differently over time.
- `KiwiResults.BestFlights.SetFlights`: a response is either a list of records or `None`. Other JSON shapes (an object, a string, a list of non-objects) are not modelled.
- `KiwiResults.ExtractFlightInfo`: does not convert the duration to hours with `round(duration / 3600, 2)`. This is floating-point rounding, so the offer keeps the duration in seconds. The TypeError that the division raises for a non-numeric duration (a string, null, a list or a dictionary) is modelled. The OverflowError is not: an integer duration of about 6.5·10^311 or more makes `duration / 3600` raise in the source, so the search returns None, while the model extracts the offer and the search succeeds.
- `KiwiRequest.DateToKiwiFormat`: how wide `%Y` is for years below 1000 depends on the C library. The model writes the plain numeral without padding. The ten-character claim covers four-digit years only.
- `Export.AllOptionsForJapan.SearchAndSetBestFlights`: the thread pool of two workers, `as_completed` and the `time.sleep(2.2)` pacing (main.py:113-126) are concurrency and timing. The searches run one after the other. Each search writes only its own entry, so every entry ends with the same result either way.
- `Export.AllOptionsForJapan.ToCsv`: opening the file, `csv.writer` quoting and the text form of each cell (main.py:144-172) are not modelled. The method returns the table of cells instead of writing it.
- `print` logging (main.py:82, 98, 104, 172): output only.
- `curDateTimeStr` and the timestamped file names (main.py:188-189, 214, 217) read the wall clock. The region constants of `main` appear only in the concrete cases.
