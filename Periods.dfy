/** The expense periods of `getGastosPeriodo`: one "YYYY-MM" key and one
    structured-API address per collected month. */
module Periods {
  import opened Numbers
  import opened Sources

  /** A year and how many of its months, counted from January, are collected. */
  datatype MonthRange = MonthRange(year: nat, months: nat)

  /** `periodo`: the twelve months of 2019, then January to April of 2020. */
  const REFERENCE: seq<MonthRange> := [MonthRange(2019, 12), MonthRange(2020, 4)]

  /** One element of `urlPeriodo`. */
  datatype PeriodRequest = PeriodRequest(period: string, query: ApiAddress)

  /** `${ano}-${('0' + mes).substr(-2)}`. */
  function PeriodKey(year: nat, month: nat): string {
    DecimalText(year) + "-" + Pad2(month)
  }

  /** One element of `urlPeriodo`: the month's key and its expenses request. */
  function Request(id: nat, year: nat, month: nat): PeriodRequest {
    PeriodRequest(PeriodKey(year, month), ExpensesAt(id, year, month))
  }

  /** Months 1 to `m` of `year`, in order. */
  function MonthRequests(id: nat, year: nat, m: nat): (r: seq<PeriodRequest>)
    ensures |r| == m
  {
    if m == 0 then [] else MonthRequests(id, year, m - 1) + [Request(id, year, m)]
  }

  /** Request `k` of a year asks for month `k + 1`. */
  lemma {:induction false} MonthRequestsAt(id: nat, year: nat, m: nat, k: nat)
    requires k < m
    ensures MonthRequests(id, year, m)[k] == Request(id, year, k + 1)
  {
    if k < m - 1 {
      MonthRequestsAt(id, year, m - 1, k);
    }
  }

  function TotalMonths(ranges: seq<MonthRange>): nat {
    if ranges == [] then 0 else TotalMonths(ranges[..|ranges| - 1]) + ranges[|ranges| - 1].months
  }

  /** Every month of every range, ranges in order and months in order within each. */
  function Requests(id: nat, ranges: seq<MonthRange>): (r: seq<PeriodRequest>)
    ensures |r| == TotalMonths(ranges)
  {
    if ranges == [] then []
    else
      var last := ranges[|ranges| - 1];
      Requests(id, ranges[..|ranges| - 1]) + MonthRequests(id, last.year, last.months)
  }

  /** The inner `forEach` (lines 210-217): months 1 to `months` of `year`
      pushed after `done`. */
  method AppendMonths(done: seq<PeriodRequest>, id: nat, year: nat, months: nat)
    returns (out: seq<PeriodRequest>)
    ensures out == done + MonthRequests(id, year, months)
  {
    out := done;
    var m := 0;
    while m < months
      invariant m <= months
      invariant out == done + MonthRequests(id, year, m)
    {
      var r := Request(id, year, m + 1);
      assert MonthRequests(id, year, m + 1) == MonthRequests(id, year, m) + [r];
      out := out + [r];
      m := m + 1;
    }
  }

  /** The two nested `forEach` loops pushing into `urlPeriodo` (lines 207-218). */
  method BuildRequests(id: nat, ranges: seq<MonthRange>) returns (out: seq<PeriodRequest>)
    ensures out == Requests(id, ranges)
  {
    out := [];
    var j := 0;
    while j < |ranges|
      invariant 0 <= j <= |ranges|
      invariant out == Requests(id, ranges[..j])
    {
      out := AppendMonths(out, id, ranges[j].year, ranges[j].months);
      assert ranges[..j + 1][..j] == ranges[..j];
      j := j + 1;
    }
    assert ranges[..j] == ranges;
  }

  lemma Pad2Digits(m: nat)
    requires m < 100
    ensures Pad2(m) == [DigitChar(m / 10), DigitChar(m % 10)]
  {
    var r := Pad2(m);
    TwoDigits(r);
    assert DigitValue(r[0]) == m / 10 && DigitValue(r[1]) == m % 10;
    assert r[0] == DigitChar(DigitValue(r[0]));
    assert r[1] == DigitChar(DigitValue(r[1]));
  }

  lemma TwoDigits(r: string)
    requires |r| == 2 && AllDigits(r)
    ensures DigitsValue(r) == DigitValue(r[0]) * 10 + DigitValue(r[1])
  {
    assert r[..1][..0] == [];
    assert DigitsValue(r[..1]) == DigitValue(r[0]);
  }

  lemma YearTexts()
    ensures DecimalText(2019) == "2019" && DecimalText(2020) == "2020"
  {
    assert DecimalText(2) == "2";
    assert DecimalText(20) == "20";
    assert DecimalText(201) == "201";
    assert DecimalText(202) == "202";
  }

  /** A four-digit year is the first four characters of its period keys. */
  lemma PeriodKeyYear(year: nat, month: nat)
    requires 1000 <= year < 10000
    ensures |PeriodKey(year, month)| == 7
    ensures PeriodKey(year, month)[..4] == DecimalText(year)
  {
    DecimalTextValue(year);
    assert |DecimalText(year)| == 4 by {
      var d := DecimalText(year);
      if |d| < 4 {
        assert year < Pow10(|d|) <= Pow10(3) by { Pow10Monotone(|d|, 3); }
      } else if |d| > 4 {
        LeadingAtLeast(d);
        Pow10Monotone(4, |d| - 1);
      }
    }
  }

  /** A digit string with a non-zero first digit is worth at least 10^(|d|-1). */
  lemma {:induction false} LeadingAtLeast(d: string)
    requires AllDigits(d) && |d| >= 1 && d[0] != '0'
    ensures DigitsValue(d) >= Pow10(|d| - 1)
  {
    if |d| > 1 {
      assert d[..|d| - 1][0] == d[0];
      LeadingAtLeast(d[..|d| - 1]);
    }
  }

  /** The reference configuration enumerates sixteen periods, "2019-01" to
      "2019-12" and then "2020-01" to "2020-04", each month on two digits. */
  lemma ReferencePeriods(id: nat)
    ensures var rs := Requests(id, REFERENCE);
            && |rs| == 16
            && (forall k :: 0 <= k < 12 ==> rs[k].period == "2019-" + Pad2(k + 1))
            && (forall k :: 12 <= k < 16 ==> rs[k].period == "2020-" + Pad2(k - 11))
  {
    var first := MonthRequests(id, 2019, 12);
    var second := MonthRequests(id, 2020, 4);
    ReferenceSplit(id);
    MonthPeriods(id, 2019, 12);
    MonthPeriods(id, 2020, 4);
    PeriodsOfSplit(Requests(id, REFERENCE), first, second);
  }

  lemma PeriodsOfSplit(rs: seq<PeriodRequest>, first: seq<PeriodRequest>, second: seq<PeriodRequest>)
    requires rs == first + second && |first| == 12 && |second| == 4
    requires forall k :: 0 <= k < 12 ==> first[k].period == "2019-" + Pad2(k + 1)
    requires forall k :: 0 <= k < 4 ==> second[k].period == "2020-" + Pad2(k + 1)
    ensures |rs| == 16
    ensures forall k :: 0 <= k < 12 ==> rs[k].period == "2019-" + Pad2(k + 1)
    ensures forall k :: 12 <= k < 16 ==> rs[k].period == "2020-" + Pad2(k - 11)
  {
    forall k | 12 <= k < 16 ensures rs[k].period == "2020-" + Pad2(k - 11) {
      assert rs[k] == second[k - 12];
    }
  }

  /** The k-th request of a reference year is keyed by that year and month k + 1. */
  lemma MonthPeriods(id: nat, year: nat, m: nat)
    requires year == 2019 || year == 2020
    ensures forall k :: 0 <= k < m ==>
      MonthRequests(id, year, m)[k].period == (if year == 2019 then "2019-" else "2020-") + Pad2(k + 1)
  {
    forall k | 0 <= k < m
      ensures MonthRequests(id, year, m)[k].period == (if year == 2019 then "2019-" else "2020-") + Pad2(k + 1)
    {
      MonthRequestsAt(id, year, m, k);
      KeyText(year, k + 1);
    }
  }

  /** The reference requests are the months of 2019 followed by those of 2020. */
  lemma ReferenceSplit(id: nat)
    ensures Requests(id, REFERENCE) == MonthRequests(id, 2019, 12) + MonthRequests(id, 2020, 4)
  {
    assert REFERENCE[..1][..0] == [];
    assert REFERENCE[..1] == [MonthRange(2019, 12)];
    assert Requests(id, REFERENCE[..1]) == MonthRequests(id, 2019, 12);
  }

  lemma KeyText(year: nat, month: nat)
    requires year == 2019 || year == 2020
    ensures PeriodKey(year, month) == (if year == 2019 then "2019-" else "2020-") + Pad2(month)
  {
    YearTexts();
  }

  /** The first and the last reference keys, written out. */
  lemma ReferenceEnds(id: nat)
    ensures Requests(id, REFERENCE)[0].period == "2019-01"
    ensures Requests(id, REFERENCE)[15].period == "2020-04"
  {
    ReferencePeriods(id);
    Pad2Digits(1);
    Pad2Digits(4);
  }

  /** Every reference period key starts with "2019" or "2020". */
  lemma ReferenceYears(id: nat)
    ensures var rs := Requests(id, REFERENCE);
            forall k :: 0 <= k < |rs| ==>
              |rs[k].period| == 7 && (rs[k].period[..4] == "2019" || rs[k].period[..4] == "2020")
  {
    var first := MonthRequests(id, 2019, 12);
    var second := MonthRequests(id, 2020, 4);
    ReferenceSplit(id);
    YearTexts();
    var rs := first + second;
    forall k | 0 <= k < |rs|
      ensures |rs[k].period| == 7 && (rs[k].period[..4] == "2019" || rs[k].period[..4] == "2020")
    {
      if k < 12 {
        assert rs[k] == first[k];
        MonthRequestsAt(id, 2019, 12, k);
        PeriodKeyYear(2019, k + 1);
      } else {
        assert rs[k] == second[k - 12];
        MonthRequestsAt(id, 2020, 4, k - 12);
        PeriodKeyYear(2020, k - 11);
      }
    }
  }
}
