/**
 * Round-trip flight plans and their generation (`FlightItinerary` and `all_flight_options` in main.py).
 */
module Itineraries {
  import opened Seqs

  /** An airport code such as "LAX"; codes are not validated. */
  type Airport = string

  /** A calendar date as Python's `datetime.date` holds it. */
  datatype Date = Date(year: int, month: int, day: int)

  predicate IsLeapYear(year: int)
  {
    year % 4 == 0 && (year % 100 != 0 || year % 400 == 0)
  }

  function DaysInMonth(year: int, month: int): int
    requires 1 <= month <= 12
  {
    if month == 2 then (if IsLeapYear(year) then 29 else 28)
    else if month == 4 || month == 6 || month == 9 || month == 11 then 30
    else 31
  }

  /** `datetime.date` only holds years 1..9999 and days that exist in their month. */
  predicate ValidDate(d: Date)
  {
    1 <= d.year <= 9999 && 1 <= d.month <= 12 && 1 <= d.day <= DaysInMonth(d.year, d.month)
  }

  type CalendarDate = d: Date | ValidDate(d) witness Date(2024, 3, 22)

  /** Fly homeOut -> destIn on dateFrom, and destOut -> homeIn on dateTo. */
  datatype Itinerary = Itinerary(
    homeOut: Airport, destIn: Airport, destOut: Airport, homeIn: Airport,
    dateFrom: CalendarDate, dateTo: CalendarDate)

  /*
   * The comprehension
   *   [FlightItinerary(u_out, j_in, j_out, u_in, date_from, date_to)
   *     for u_out in us for j_in in jp for j_out in jp for u_in in us]
   * is written as one function per `for`, innermost first.
   */

  /** `for u_in in us`, the three outer choices fixed. */
  function ForHomeIn(homeOut: Airport, destIn: Airport, destOut: Airport, us: seq<Airport>,
                     dateFrom: CalendarDate, dateTo: CalendarDate): (r: seq<Itinerary>)
    ensures |r| == |us|
  {
    seq(|us|, l requires 0 <= l < |us| => Itinerary(homeOut, destIn, destOut, us[l], dateFrom, dateTo))
  }

  function DestOutBlocks(homeOut: Airport, destIn: Airport, jp: seq<Airport>, us: seq<Airport>,
                         dateFrom: CalendarDate, dateTo: CalendarDate): seq<seq<Itinerary>>
  {
    seq(|jp|, k requires 0 <= k < |jp| => ForHomeIn(homeOut, destIn, jp[k], us, dateFrom, dateTo))
  }

  /** `for j_out in jp for u_in in us`. */
  function ForDestOut(homeOut: Airport, destIn: Airport, jp: seq<Airport>, us: seq<Airport>,
                      dateFrom: CalendarDate, dateTo: CalendarDate): (r: seq<Itinerary>)
    ensures |r| == |jp| * |us|
  {
    TotalLengthUniform(DestOutBlocks(homeOut, destIn, jp, us, dateFrom, dateTo), |us|);
    Flatten(DestOutBlocks(homeOut, destIn, jp, us, dateFrom, dateTo))
  }

  function DestInBlocks(homeOut: Airport, jp: seq<Airport>, us: seq<Airport>,
                        dateFrom: CalendarDate, dateTo: CalendarDate): seq<seq<Itinerary>>
  {
    seq(|jp|, j requires 0 <= j < |jp| => ForDestOut(homeOut, jp[j], jp, us, dateFrom, dateTo))
  }

  /** `for j_in in jp for j_out in jp for u_in in us`. */
  function ForDestIn(homeOut: Airport, jp: seq<Airport>, us: seq<Airport>,
                     dateFrom: CalendarDate, dateTo: CalendarDate): (r: seq<Itinerary>)
    ensures |r| == |jp| * (|jp| * |us|)
  {
    TotalLengthUniform(DestInBlocks(homeOut, jp, us, dateFrom, dateTo), |jp| * |us|);
    Flatten(DestInBlocks(homeOut, jp, us, dateFrom, dateTo))
  }

  function HomeOutBlocks(us: seq<Airport>, jp: seq<Airport>,
                         dateFrom: CalendarDate, dateTo: CalendarDate): seq<seq<Itinerary>>
  {
    seq(|us|, i requires 0 <= i < |us| => ForDestIn(us[i], jp, us, dateFrom, dateTo))
  }

  /**
   * Every round trip out of and back into `usPorts` through `japanPorts`, with the same two dates,
   * in the order of the nested comprehension. Nothing is deduplicated or filtered.
   */
  function AllFlightOptions(usPorts: seq<Airport>, japanPorts: seq<Airport>,
                            dateFrom: CalendarDate, dateTo: CalendarDate): (r: seq<Itinerary>)
    ensures |r| == |usPorts| * |usPorts| * |japanPorts| * |japanPorts|
    ensures usPorts == [] || japanPorts == [] ==> r == []
  {
    TotalLengthUniform(HomeOutBlocks(usPorts, japanPorts, dateFrom, dateTo),
                       |japanPorts| * (|japanPorts| * |usPorts|));
    ProductOfFour(|usPorts|, |japanPorts|);
    Flatten(HomeOutBlocks(usPorts, japanPorts, dateFrom, dateTo))
  }

  lemma ProductOfFour(m: nat, n: nat)
    ensures m * (n * (n * m)) == m * m * n * n
  {
  }

  /** The position ((i*n + j)*n + k)*m + l of the choice (us[i], jp[j], jp[k], us[l]), with m = |us|, n = |jp|. */
  function OptionIndex(i: nat, j: nat, k: nat, l: nat, m: nat, n: nat): nat
  {
    ((i * n + j) * n + k) * m + l
  }

  /** Mixed-radix digits (i, j, k, l) with radices (n, n, m) name index ((i*n + j)*n + k)*m + l. */
  lemma MixedRadixIndex(i: nat, j: nat, k: nat, l: nat, m: nat, n: nat)
    ensures OptionIndex(i, j, k, l, m, n) == i * (n * (n * m)) + (j * (n * m) + (k * m + l))
  {
  }

  /** Position `index` = k*m + l of ForDestOut is the choice (jp[k], us[l]). */
  lemma ForDestOutAt(homeOut: Airport, destIn: Airport, jp: seq<Airport>, us: seq<Airport>,
                     dateFrom: CalendarDate, dateTo: CalendarDate, k: nat, l: nat, index: nat)
    requires k < |jp| && l < |us| && index == k * |us| + l
    ensures index < |ForDestOut(homeOut, destIn, jp, us, dateFrom, dateTo)|
    ensures ForDestOut(homeOut, destIn, jp, us, dateFrom, dateTo)[index]
         == Itinerary(homeOut, destIn, jp[k], us[l], dateFrom, dateTo)
  {
    FlattenUniformAt(DestOutBlocks(homeOut, destIn, jp, us, dateFrom, dateTo), |us|, k, l, index);
  }

  /** Position `index` = j*(n*m) + inner of ForDestIn, with inner = k*m + l, is the choice (jp[j], jp[k], us[l]). */
  lemma ForDestInAt(homeOut: Airport, jp: seq<Airport>, us: seq<Airport>,
                    dateFrom: CalendarDate, dateTo: CalendarDate, j: nat, k: nat, l: nat, inner: nat, index: nat)
    requires j < |jp| && k < |jp| && l < |us|
    requires inner == k * |us| + l && index == j * (|jp| * |us|) + inner
    ensures index < |ForDestIn(homeOut, jp, us, dateFrom, dateTo)|
    ensures ForDestIn(homeOut, jp, us, dateFrom, dateTo)[index]
         == Itinerary(homeOut, jp[j], jp[k], us[l], dateFrom, dateTo)
  {
    ForDestOutAt(homeOut, jp[j], jp, us, dateFrom, dateTo, k, l, inner);
    FlattenUniformAt(DestInBlocks(homeOut, jp, us, dateFrom, dateTo), |jp| * |us|, j, inner, index);
  }

  /**
   * The itinerary at index ((i*n + j)*n + k)*m + l is (us[i], jp[j], jp[k], us[l]),
   * where m = |us| and n = |jp|: u_out varies slowest and u_in fastest.
   */
  lemma AllFlightOptionsAt(us: seq<Airport>, jp: seq<Airport>, dateFrom: CalendarDate, dateTo: CalendarDate,
                           i: nat, j: nat, k: nat, l: nat)
    requires i < |us| && j < |jp| && k < |jp| && l < |us|
    ensures OptionIndex(i, j, k, l, |us|, |jp|) < |AllFlightOptions(us, jp, dateFrom, dateTo)|
    ensures AllFlightOptions(us, jp, dateFrom, dateTo)[OptionIndex(i, j, k, l, |us|, |jp|)]
         == Itinerary(us[i], jp[j], jp[k], us[l], dateFrom, dateTo)
  {
    var m, n := |us|, |jp|;
    var inner: nat := k * m + l;
    var middle: nat := j * (n * m) + inner;
    var index := OptionIndex(i, j, k, l, m, n);
    MixedRadixIndex(i, j, k, l, m, n);
    ForDestInAt(us[i], jp, us, dateFrom, dateTo, j, k, l, inner, middle);
    FlattenUniformAt(HomeOutBlocks(us, jp, dateFrom, dateTo), n * (n * m), i, middle, index);
  }

  lemma {:induction false} ForHomeInMember(x: Itinerary, homeOut: Airport, destIn: Airport, destOut: Airport,
                                           us: seq<Airport>, dateFrom: CalendarDate, dateTo: CalendarDate)
    ensures x in ForHomeIn(homeOut, destIn, destOut, us, dateFrom, dateTo)
        <==> x.homeOut == homeOut && x.destIn == destIn && x.destOut == destOut && x.homeIn in us
             && x.dateFrom == dateFrom && x.dateTo == dateTo
  {
    var r := ForHomeIn(homeOut, destIn, destOut, us, dateFrom, dateTo);
    if x.homeOut == homeOut && x.destIn == destIn && x.destOut == destOut && x.homeIn in us
       && x.dateFrom == dateFrom && x.dateTo == dateTo {
      var l :| 0 <= l < |us| && us[l] == x.homeIn;
      assert r[l] == x;
    }
  }

  lemma {:induction false} ForDestOutMember(x: Itinerary, homeOut: Airport, destIn: Airport,
                                            jp: seq<Airport>, us: seq<Airport>,
                                            dateFrom: CalendarDate, dateTo: CalendarDate)
    ensures x in ForDestOut(homeOut, destIn, jp, us, dateFrom, dateTo)
        <==> x.homeOut == homeOut && x.destIn == destIn && x.destOut in jp && x.homeIn in us
             && x.dateFrom == dateFrom && x.dateTo == dateTo
  {
    var blocks := DestOutBlocks(homeOut, destIn, jp, us, dateFrom, dateTo);
    FlattenMember(blocks, x);
    if x in ForDestOut(homeOut, destIn, jp, us, dateFrom, dateTo) {
      var k :| 0 <= k < |blocks| && x in blocks[k];
      ForHomeInMember(x, homeOut, destIn, jp[k], us, dateFrom, dateTo);
    }
    if x.homeOut == homeOut && x.destIn == destIn && x.destOut in jp && x.homeIn in us
       && x.dateFrom == dateFrom && x.dateTo == dateTo {
      var k :| 0 <= k < |jp| && jp[k] == x.destOut;
      ForHomeInMember(x, homeOut, destIn, jp[k], us, dateFrom, dateTo);
      assert x in blocks[k];
    }
  }

  lemma {:induction false} ForDestInMember(x: Itinerary, homeOut: Airport, jp: seq<Airport>, us: seq<Airport>,
                                           dateFrom: CalendarDate, dateTo: CalendarDate)
    ensures x in ForDestIn(homeOut, jp, us, dateFrom, dateTo)
        <==> x.homeOut == homeOut && x.destIn in jp && x.destOut in jp && x.homeIn in us
             && x.dateFrom == dateFrom && x.dateTo == dateTo
  {
    var blocks := DestInBlocks(homeOut, jp, us, dateFrom, dateTo);
    FlattenMember(blocks, x);
    if x in ForDestIn(homeOut, jp, us, dateFrom, dateTo) {
      var j :| 0 <= j < |blocks| && x in blocks[j];
      ForDestOutMember(x, homeOut, jp[j], jp, us, dateFrom, dateTo);
    }
    if x.homeOut == homeOut && x.destIn in jp && x.destOut in jp && x.homeIn in us
       && x.dateFrom == dateFrom && x.dateTo == dateTo {
      var j :| 0 <= j < |jp| && jp[j] == x.destIn;
      ForDestOutMember(x, homeOut, jp[j], jp, us, dateFrom, dateTo);
      assert x in blocks[j];
    }
  }

  /**
   * An itinerary is generated exactly when its home airports come from `us`, its destination
   * airports from `jp`, and its dates are the given ones. In particular the combinations with
   * destIn == destOut or homeOut == homeIn are kept.
   */
  lemma {:induction false} AllFlightOptionsMember(x: Itinerary, us: seq<Airport>, jp: seq<Airport>,
                                                  dateFrom: CalendarDate, dateTo: CalendarDate)
    ensures x in AllFlightOptions(us, jp, dateFrom, dateTo)
        <==> x.homeOut in us && x.destIn in jp && x.destOut in jp && x.homeIn in us
             && x.dateFrom == dateFrom && x.dateTo == dateTo
  {
    var blocks := HomeOutBlocks(us, jp, dateFrom, dateTo);
    FlattenMember(blocks, x);
    if x in AllFlightOptions(us, jp, dateFrom, dateTo) {
      var i :| 0 <= i < |blocks| && x in blocks[i];
      ForDestInMember(x, us[i], jp, us, dateFrom, dateTo);
    }
    if x.homeOut in us && x.destIn in jp && x.destOut in jp && x.homeIn in us
       && x.dateFrom == dateFrom && x.dateTo == dateTo {
      var i :| 0 <= i < |us| && us[i] == x.homeOut;
      ForDestInMember(x, us[i], jp, us, dateFrom, dateTo);
      assert x in blocks[i];
    }
  }
}
