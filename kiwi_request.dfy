/**
 * The two-leg search request built for one itinerary (`date_to_kiwi_format` and the `payload`
 * dictionary of `get_raw_kiwi_results` in main.py). The HTTP call itself is not modelled.
 */
module KiwiRequest {
  import opened Wrappers
  import opened Itineraries

  predicate IsDigit(c: char)
  {
    '0' <= c <= '9'
  }

  predicate AllDigits(s: string)
  {
    forall i :: 0 <= i < |s| ==> IsDigit(s[i])
  }

  function DigitChar(n: nat): (c: char)
    requires n < 10
    ensures IsDigit(c)
  {
    ('0' as int + n) as char
  }

  function DigitValue(c: char): nat
    requires IsDigit(c)
  {
    c as int - '0' as int
  }

  /** The decimal numeral of `n`, without leading zeros. */
  function DecimalString(n: nat): (s: string)
    ensures |s| >= 1 && AllDigits(s)
  {
    if n < 10 then [DigitChar(n)] else DecimalString(n / 10) + [DigitChar(n % 10)]
  }

  /** The number a numeral denotes; leading zeros are allowed. */
  function DigitsValue(s: string): nat
    requires AllDigits(s)
  {
    if s == [] then 0 else 10 * DigitsValue(s[..|s| - 1]) + DigitValue(s[|s| - 1])
  }

  /** `n` as two digits, with a leading zero below 10 (strftime's `%d` and `%m`). */
  function TwoDigits(n: nat): (s: string)
    requires n < 100
    ensures |s| == 2 && AllDigits(s)
  {
    [DigitChar(n / 10), DigitChar(n % 10)]
  }

  /**
   * `d.strftime("%d/%m/%Y")`. `%Y` is written as the year's plain numeral, as the C library on
   * Linux does; for the four-digit years the program uses this is `dd/mm/yyyy`.
   */
  function DateToKiwiFormat(d: CalendarDate): (s: string)
    ensures |s| == 6 + |DecimalString(d.year)|
    ensures s[2] == '/' && s[5] == '/'
    ensures AllDigits(s[..2]) && AllDigits(s[3..5]) && AllDigits(s[6..])
  {
    TwoDigits(d.day) + "/" + TwoDigits(d.month) + "/" + DecimalString(d.year)
  }

  /** Reads a `dd/mm/y...` string back into a date; the inverse of DateToKiwiFormat. */
  function ParseKiwiDate(s: string): (r: Option<CalendarDate>)
    ensures r.Some? ==> |s| >= 7 && s[2] == '/' && s[5] == '/'
  {
    if |s| < 7 || s[2] != '/' || s[5] != '/'
       || !AllDigits(s[..2]) || !AllDigits(s[3..5]) || !AllDigits(s[6..])
    then None
    else
      var d := Date(DigitsValue(s[6..]), DigitsValue(s[3..5]), DigitsValue(s[..2]));
      if ValidDate(d) then Some(d) else None
  }

  lemma {:induction false} DecimalStringValue(n: nat)
    ensures DigitsValue(DecimalString(n)) == n
  {
    var s := DecimalString(n);
    if n >= 10 {
      DecimalStringValue(n / 10);
      assert s[..|s| - 1] == DecimalString(n / 10);
    }
  }

  lemma TwoDigitsValue(n: nat)
    requires n < 100
    ensures DigitsValue(TwoDigits(n)) == n
  {
    var s := TwoDigits(n);
    assert s[..1][..0] == [];
    assert s[..1] == [DigitChar(n / 10)];
    assert DigitValue(DigitChar(n / 10)) == n / 10;
    assert DigitValue(DigitChar(n % 10)) == n % 10;
    assert DigitsValue(s[..1]) == n / 10;
  }

  /** Four-digit years give four-character numerals. */
  lemma FourDigitYear(year: nat)
    requires 1000 <= year <= 9999
    ensures |DecimalString(year)| == 4
  {
    assert |DecimalString(year / 10 / 10 / 10)| == 1;
    assert |DecimalString(year / 10 / 10)| == 2;
    assert |DecimalString(year / 10)| == 3;
  }

  /** For a four-digit year the formatted date is ten characters with '/' at positions 2 and 5. */
  lemma KiwiDateShape(d: CalendarDate)
    requires 1000 <= d.year
    ensures |DateToKiwiFormat(d)| == 10
    ensures DateToKiwiFormat(d)[2] == '/' && DateToKiwiFormat(d)[5] == '/'
  {
    FourDigitYear(d.year);
  }

  /** Formatting loses nothing: parsing the formatted date gives the date back. */
  lemma KiwiDateRoundTrip(d: CalendarDate)
    ensures ParseKiwiDate(DateToKiwiFormat(d)) == Some(d)
  {
    var s := DateToKiwiFormat(d);
    assert s[..2] == TwoDigits(d.day);
    assert s[3..5] == TwoDigits(d.month);
    assert s[6..] == DecimalString(d.year);
    DecimalStringValue(d.year);
    TwoDigitsValue(d.day);
    TwoDigitsValue(d.month);
  }

  /** Distinct dates are formatted differently. */
  lemma KiwiDateInjective(d1: CalendarDate, d2: CalendarDate)
    requires DateToKiwiFormat(d1) == DateToKiwiFormat(d2)
    ensures d1 == d2
  {
    KiwiDateRoundTrip(d1);
    KiwiDateRoundTrip(d2);
  }

  /** One entry of the payload's "requests" list: a one-way search. */
  datatype Leg = Leg(
    limit: int, sort: string, curr: string,
    flyTo: Airport, flyFrom: Airport,
    dateFrom: string, dateTo: string,
    adults: int)

  /** The request body `{"requests": [...]}`. */
  datatype Payload = Payload(requests: seq<Leg>)

  const ResultLimit := 5
  const SortKey := "quality"
  const Currency := "USD"
  const Adults := 1

  /** A one-way search from `flyFrom` to `flyTo` departing on `day` only. */
  function OneWayLeg(flyFrom: Airport, flyTo: Airport, day: CalendarDate): Leg
  {
    Leg(ResultLimit, SortKey, Currency, flyTo, flyFrom, DateToKiwiFormat(day), DateToKiwiFormat(day), Adults)
  }

  /** Leg 1 is homeOut -> destIn on dateFrom, leg 2 is destOut -> homeIn on dateTo. */
  function BuildPayload(plan: Itinerary): (p: Payload)
    ensures |p.requests| == 2
    ensures p.requests[0].flyFrom == plan.homeOut && p.requests[0].flyTo == plan.destIn
    ensures p.requests[0].dateFrom == p.requests[0].dateTo == DateToKiwiFormat(plan.dateFrom)
    ensures p.requests[1].flyFrom == plan.destOut && p.requests[1].flyTo == plan.homeIn
    ensures p.requests[1].dateFrom == p.requests[1].dateTo == DateToKiwiFormat(plan.dateTo)
    ensures forall leg <- p.requests ::
              leg.limit == 5 && leg.sort == "quality" && leg.curr == "USD" && leg.adults == 1
  {
    Payload([
      OneWayLeg(plan.homeOut, plan.destIn, plan.dateFrom),
      OneWayLeg(plan.destOut, plan.homeIn, plan.dateTo)
    ])
  }

  /** The itinerary a two-leg payload searches for, if its legs are well-formed. */
  function PlanOfPayload(p: Payload): Option<Itinerary>
  {
    if |p.requests| != 2 then None
    else
      var out, back := p.requests[0], p.requests[1];
      match (ParseKiwiDate(out.dateFrom), ParseKiwiDate(back.dateFrom))
      case (Some(dateFrom), Some(dateTo)) =>
        Some(Itinerary(out.flyFrom, out.flyTo, back.flyFrom, back.flyTo, dateFrom, dateTo))
      case _ => None
  }

  /** The payload determines the itinerary it was built from. */
  lemma PayloadRoundTrip(plan: Itinerary)
    ensures PlanOfPayload(BuildPayload(plan)) == Some(plan)
  {
    KiwiDateRoundTrip(plan.dateFrom);
    KiwiDateRoundTrip(plan.dateTo);
  }

  /** Distinct itineraries send distinct requests. */
  lemma BuildPayloadInjective(a: Itinerary, b: Itinerary)
    requires BuildPayload(a) == BuildPayload(b)
    ensures a == b
  {
    PayloadRoundTrip(a);
    PayloadRoundTrip(b);
  }
}
