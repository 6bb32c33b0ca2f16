/** The summary tab: each subscription's bills in the filter's range (the
    current calendar year when no date bound is set), their count, their
    totals per currency, and per currency a chart of amounts over time. */
module Summary {
  import opened Wrappers
  import opened Calendar
  import opened Domain
  import opened Tables
  import opened BillFilters

  // ---- the range ----

  /** The summary's filter: with neither bound set, January 1 to December 31
      of `currentYear` (the clock's year, a parameter); otherwise the
      bounds as set. The currency is the one set. */
  function SummaryFilter(f: BillFilter, currentYear: int): (r: BillFilter)
    requires MinYear <= currentYear <= MaxYear
    ensures r.currency == f.currency
    ensures f.from.None? && f.to.None? ==>
      r.from == Some(Date(currentYear, 1, 1)) && r.to == Some(Date(currentYear, 12, 31))
    ensures f.from.Some? || f.to.Some? ==> r.from == f.from && r.to == f.to
  {
    if f.from.None? && f.to.None? then
      BillFilter(Some(Date(currentYear, 1, 1)), Some(Date(currentYear, 12, 31)), f.currency)
    else f
  }

  /** With no date bound set, the summary keeps exactly the bills of the
      current year (in the filter's currency). */
  lemma DefaultRangeIsCurrentYear(f: BillFilter, currentYear: int, b: ElectricityBill)
    requires MinYear <= currentYear <= MaxYear && f.from.None? && f.to.None?
    ensures Matches(SummaryFilter(f, currentYear), b) <==>
      b.paymentDate.year == currentYear && (f.currency.None? || b.currency == f.currency.value)
  {
    var d := b.paymentDate;
    assert 1 <= d.month <= 12 && d.day <= DaysInMonth(d.year, d.month) <= 31;
  }

  /** A date bound set leaves the tab's own filter in force. */
  lemma SetRangeIsTabFilter(f: BillFilter, currentYear: int, b: ElectricityBill)
    requires MinYear <= currentYear <= MaxYear && (f.from.Some? || f.to.Some?)
    ensures Matches(SummaryFilter(f, currentYear), b) <==> Matches(f, b)
  {
  }

  function SummarySubscriptions(subs: seq<Subscription>, f: BillFilter, currentYear: int): seq<Subscription>
    requires MinYear <= currentYear <= MaxYear
  {
    FilterSubscriptions(subs, SummaryFilter(f, currentYear))
  }

  // ---- the empty card ----

  function SubscriptionName(s: Subscription): string
  {
    s.name
  }

  /** `subscriptions.find { it.name == name }`: the first subscription with
      that name. */
  function OriginalSubscription(subs: seq<Subscription>, name: string): (r: Option<Subscription>)
    ensures r.None? <==> forall i :: 0 <= i < |subs| ==> subs[i].name != name
    ensures r.Some? ==> exists i :: (0 <= i < |subs| && subs[i] == r.value && subs[i].name == name
      && forall j :: 0 <= j < i ==> subs[j].name != name)
  {
    Find(subs, SubscriptionName, name)
  }

  /** The text of a card with no bills in range: "No bills match the current
      filter" when the original subscription has bills, else "No bills
      recorded". */
  function SummaryEmptyText(original: Option<Subscription>): (s: string)
    ensures s == "No bills match the current filter" <==>
      original.Some? && original.value.electricityBills != []
    ensures s == "No bills match the current filter" || s == "No bills recorded"
  {
    if original.Some? && original.value.electricityBills != [] then "No bills match the current filter"
    else "No bills recorded"
  }

  /** The empty text of card `i` as the tab computes it: the original is
      looked up by the card's name. */
  function CardEmptyText(subs: seq<Subscription>, f: BillFilter, currentYear: int, i: nat): string
    requires MinYear <= currentYear <= MaxYear && i < |subs|
  {
    SummaryEmptyText(OriginalSubscription(subs, SummarySubscriptions(subs, f, currentYear)[i].name))
  }

  /** Two subscriptions may share a name: then the second card's empty text
      is taken from the first, and a subscription without a single bill is
      said to have bills the filter hides. */
  lemma SharedNameMisreportsBills()
    ensures var subs := [Subscription("main", [ElectricityBill(1.0, USD, Date(2024, 1, 1))]), Subscription("main", [])];
      subs[1].electricityBills == []
      && CardEmptyText(subs, NoFilter, 2025, 1) == "No bills match the current filter"
  {
    var subs := [Subscription("main", [ElectricityBill(1.0, USD, Date(2024, 1, 1))]), Subscription("main", [])];
    assert SummarySubscriptions(subs, NoFilter, 2025)[1].name == "main";
    assert OriginalSubscription(subs, "main") == Some(subs[0]);
  }

  /** The card's empty text taken from its own subscription. */
  function CardEmptyTextFixed(subs: seq<Subscription>, f: BillFilter, currentYear: int, i: nat): (s: string)
    requires MinYear <= currentYear <= MaxYear && i < |subs|
    ensures s == "No bills match the current filter" <==> subs[i].electricityBills != []
  {
    SummaryEmptyText(Some(subs[i]))
  }

  /** An empty card says "No bills match the current filter" exactly when
      its subscription has bills and every one lies outside the range. */
  lemma CardEmptyTextFixedMeans(subs: seq<Subscription>, f: BillFilter, currentYear: int, i: nat)
    requires MinYear <= currentYear <= MaxYear && i < |subs|
    requires SummarySubscriptions(subs, f, currentYear)[i].electricityBills == []
    ensures CardEmptyTextFixed(subs, f, currentYear, i) == "No bills match the current filter" <==>
      subs[i].electricityBills != []
      && forall b :: b in subs[i].electricityBills ==> !Matches(SummaryFilter(f, currentYear), b)
  {
  }

  /** With distinct names the lookup finds the card's own subscription, and
      the two texts agree. */
  lemma CardEmptyTextAgrees(subs: seq<Subscription>, f: BillFilter, currentYear: int, i: nat)
    requires MinYear <= currentYear <= MaxYear && i < |subs|
    requires UniqueKeys(subs, SubscriptionName)
    ensures CardEmptyText(subs, f, currentYear, i) == CardEmptyTextFixed(subs, f, currentYear, i)
  {
    FindUnique(subs, SubscriptionName, i);
  }

  // ---- totals by currency ----

  function OfCurrency(c: Currency): ElectricityBill -> bool
  {
    (b: ElectricityBill) => b.currency == c
  }

  /** `sumOf { it.amount }`. */
  function SumAmounts(bills: seq<ElectricityBill>): real
  {
    if bills == [] then 0.0 else bills[0].amount + SumAmounts(bills[1..])
  }

  /** The keys of `groupBy { it.currency }`, in the order they first appear. */
  function Currencies(bills: seq<ElectricityBill>): (r: seq<Currency>)
    ensures forall c :: c in r <==> exists b :: b in bills && b.currency == c
    ensures forall i, j :: 0 <= i < j < |r| ==> r[i] != r[j]
    ensures bills != [] ==> r != [] && r[0] == bills[0].currency
  {
    if bills == [] then []
    else
      var init := bills[..|bills| - 1];
      var last := bills[|bills| - 1];
      assert bills == init + [last];
      var t := Currencies(init);
      assert init != [] ==> init[0] == bills[0];
      if last.currency in t then t else t + [last.currency]
  }

  datatype CurrencyTotal = CurrencyTotal(currency: Currency, total: real)

  /** `groupBy { it.currency }.mapValues { sumOf { it.amount } }`: one total
      per currency present, in first-appearance order, each the sum of the
      amounts of the bills in that currency. */
  function TotalsByCurrency(bills: seq<ElectricityBill>): (r: seq<CurrencyTotal>)
    ensures |r| == |Currencies(bills)|
    ensures forall i :: 0 <= i < |r| ==>
      r[i].currency == Currencies(bills)[i] && r[i].total == SumAmounts(Where(bills, OfCurrency(r[i].currency)))
  {
    var cs := Currencies(bills);
    seq(|cs|, i requires 0 <= i < |cs| => CurrencyTotal(cs[i], SumAmounts(Where(bills, OfCurrency(cs[i])))))
  }

  function SumTotals(ts: seq<CurrencyTotal>): real
  {
    if ts == [] then 0.0 else ts[0].total + SumTotals(ts[1..])
  }

  lemma {:induction false} SumConcat(a: seq<ElectricityBill>, b: seq<ElectricityBill>)
    ensures SumAmounts(a + b) == SumAmounts(a) + SumAmounts(b)
  {
    if a == [] {
      assert a + b == b;
    } else {
      assert (a + b)[0] == a[0] && (a + b)[1..] == a[1..] + b;
      SumConcat(a[1..], b);
    }
  }

  /** Every bill is in dollars or in pounds. */
  lemma {:induction false} SumSplit(bills: seq<ElectricityBill>)
    ensures SumAmounts(bills) == SumAmounts(Where(bills, OfCurrency(USD))) + SumAmounts(Where(bills, OfCurrency(LBP)))
  {
    if bills != [] {
      SumSplit(bills[1..]);
    }
  }

  lemma AbsentCurrency(bills: seq<ElectricityBill>, c: Currency)
    requires c !in Currencies(bills)
    ensures SumAmounts(Where(bills, OfCurrency(c))) == 0.0
  {
    WhereNone(bills, OfCurrency(c));
  }

  /** Two currencies, so at most two totals. */
  lemma {:induction false} AtMostTwoCurrencies(bills: seq<ElectricityBill>)
    ensures |Currencies(bills)| <= 2
  {
    if bills != [] {
      var init := bills[..|bills| - 1];
      AtMostTwoCurrencies(init);
      var t := Currencies(init);
      if |t| == 2 {
        var c := bills[|bills| - 1].currency;
        assert c == t[0] || c == t[1];
      }
    }
  }

  lemma SumTotalsShort(ts: seq<CurrencyTotal>)
    requires |ts| <= 2
    ensures SumTotals(ts) == if |ts| == 0 then 0.0 else if |ts| == 1 then ts[0].total else ts[0].total + ts[1].total
  {
    if |ts| > 0 {
      assert |ts[1..]| <= 1;
      if |ts| == 2 { assert ts[1..][1..] == []; }
    }
  }

  /** The totals shown add up to the sum of all the card's amounts: each
      bill is counted under exactly one currency. */
  lemma TotalsAddUp(bills: seq<ElectricityBill>)
    ensures SumTotals(TotalsByCurrency(bills)) == SumAmounts(bills)
  {
    hide *;
    var cs := Currencies(bills);
    var ts := TotalsByCurrency(bills);
    AtMostTwoCurrencies(bills);
    SumTotalsShort(ts);
    SumSplit(bills);
    if |cs| == 0 {
      AbsentCurrency(bills, USD);
      AbsentCurrency(bills, LBP);
    } else if |cs| == 1 {
      var other := if cs[0] == USD then LBP else USD;
      assert other !in cs;
      AbsentCurrency(bills, other);
    } else {
      assert cs[0] != cs[1];
    }
  }

  /** Each bill falls under the total of its own currency. */
  lemma BillUnderItsCurrency(bills: seq<ElectricityBill>, b: ElectricityBill)
    requires b in bills
    ensures exists i :: 0 <= i < |TotalsByCurrency(bills)| && TotalsByCurrency(bills)[i].currency == b.currency
  {
    var cs := Currencies(bills);
    assert b.currency in cs;
    var i :| 0 <= i < |cs| && cs[i] == b.currency;
    assert TotalsByCurrency(bills)[i].currency == b.currency;
  }

  // ---- the chart ----

  function DateKey(b: ElectricityBill): int
  {
    DayNumber(b.paymentDate)
  }

  /** `sortedBy { it.paymentDate }`: the same bills, in date order; the
      sort is stable, so the bills paid on one day keep their input order. */
  function SortedByDate(bills: seq<ElectricityBill>): (r: seq<ElectricityBill>)
    ensures multiset(r) == multiset(bills)
    ensures forall i, j :: 0 <= i < j < |r| ==> NotAfter(r[i].paymentDate, r[j].paymentDate)
    ensures forall day :: Where(r, KeyIs(DateKey, day)) == Where(bills, KeyIs(DateKey, day))
  {
    SortAscSorted(bills, DateKey);
    var r := SortAsc(bills, DateKey);
    forall day ensures Where(r, KeyIs(DateKey, day)) == Where(bills, KeyIs(DateKey, day)) {
      SortAscStable(bills, DateKey, day);
    }
    forall i, j | 0 <= i < j < |r| ensures NotAfter(r[i].paymentDate, r[j].paymentDate) {
      DayNumberOrder(r[j].paymentDate, r[i].paymentDate);
      assert DateKey(r[i]) <= DateKey(r[j]);
    }
    r
  }

  /** A chart point; `x` is the number of days since the earliest bill. */
  datatype ChartPoint = ChartPoint(x: int, date: LocalDate, amount: real)

  /** One point per bill, in date order, the first at day 0 and each at its
      day count from the first. */
  function ChartData(bills: seq<ElectricityBill>): (r: seq<ChartPoint>)
    ensures |r| == |bills|
    ensures bills != [] ==> r[0].x == 0
    ensures forall i :: 0 <= i < |r| ==>
      r[i].date == SortedByDate(bills)[i].paymentDate && r[i].amount == SortedByDate(bills)[i].amount
    ensures forall i :: 0 <= i < |r| ==> r[i].x == DaysBetween(r[0].date, r[i].date) && r[i].x >= 0
    ensures forall i, j :: 0 <= i < j < |r| ==> r[i].x <= r[j].x
  {
    var s := SortedByDate(bills);
    assert |s| == |multiset(s)| == |bills|;
    var r := seq(|s|, i requires 0 <= i < |s| =>
      ChartPoint(DaysBetween(s[0].paymentDate, s[i].paymentDate), s[i].paymentDate, s[i].amount));
    forall i, j | 0 <= i <= j < |r| ensures r[i].x <= r[j].x {
      if i < j { DayNumberOrder(s[i].paymentDate, s[j].paymentDate); }
    }
    forall i | 0 <= i < |r| ensures r[i].x >= 0 {
      if 0 < i { DayNumberOrder(s[0].paymentDate, s[i].paymentDate); }
    }
    r
  }

  datatype ChartView = NoChart | SinglePoint(amount: real) | LineChart(points: seq<ChartPoint>)

  /** Two or more points draw a line; one point is shown as its amount. */
  function ChartViewOf(points: seq<ChartPoint>): (v: ChartView)
    ensures v.LineChart? <==> |points| >= 2
    ensures v.SinglePoint? <==> |points| == 1
    ensures v.SinglePoint? ==> v.amount == points[0].amount
    ensures v.LineChart? ==> v.points == points
  {
    if |points| >= 2 then LineChart(points)
    else if |points| == 1 then SinglePoint(points[0].amount)
    else NoChart
  }

  /** A currency that appears has bills to chart. */
  lemma CurrencyGroupNonEmpty(bills: seq<ElectricityBill>, c: Currency)
    requires c in Currencies(bills)
    ensures Where(bills, OfCurrency(c)) != []
  {
    var b :| b in bills && b.currency == c;
    WhereMembers(bills, OfCurrency(c));
    var k :| 0 <= k < |bills| && bills[k] == b;
    assert OfCurrency(c)(bills[k]);
  }

  /** One chart per currency present, in first-appearance order, over the
      bills of that currency. */
  function CurrencyCharts(bills: seq<ElectricityBill>): (r: seq<(Currency, ChartView)>)
    ensures |r| == |Currencies(bills)|
    ensures forall i :: 0 <= i < |r| ==>
      r[i].0 == Currencies(bills)[i] && r[i].1 == ChartViewOf(ChartData(Where(bills, OfCurrency(r[i].0))))
  {
    var cs := Currencies(bills);
    seq(|cs|, i requires 0 <= i < |cs| => (cs[i], ChartViewOf(ChartData(Where(bills, OfCurrency(cs[i]))))))
  }

  /** No currency's chart is empty: a line or a single amount. */
  lemma ChartsNeverEmpty(bills: seq<ElectricityBill>, i: nat)
    requires i < |CurrencyCharts(bills)|
    ensures !CurrencyCharts(bills)[i].1.NoChart?
  {
    var cs := Currencies(bills);
    CurrencyGroupNonEmpty(bills, cs[i]);
  }
}
