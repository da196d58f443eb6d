/** `getDashboardStats(factoryId)`: revenue and invoice count of a factory,
    and its sales per month over the six months ending with the current one.
    A month is named by its key (`Schema.MonthKey`, consecutive months
    differing by one) instead of its locale label. */
module Dashboard {
  import opened Base
  import opened Schema
  import Store

  /** One entry of `chartData`. */
  datatype ChartPoint = ChartPoint(month: int, total: real)

  datatype DashboardResult =
    | Stats(totalRevenue: real, invoiceCount: nat, chartData: seq<ChartPoint>)
    | DashboardError(error: string)

  /** The rows of `... from invoices where factory_id = factoryId`, in table order. */
  function FactoryInvoices(invs: seq<Invoice>, factoryId: Id): (r: seq<Invoice>)
    ensures forall i :: 0 <= i < |r| ==> r[i] in invs && r[i].factoryId == factoryId
    ensures forall i :: 0 <= i < |invs| && invs[i].factoryId == factoryId ==> invs[i] in r
  {
    Filter(invs, (inv: Invoice) => inv.factoryId == factoryId)
  }

  /** `sum(total_amount)` over the rows, with an empty sum read as 0 (the
      SQL sum of no rows is NULL, which `|| 0` turns into 0). */
  function SumTotals(s: seq<Invoice>): (r: real)
    ensures s == [] ==> r == 0.0
    ensures (forall i :: 0 <= i < |s| ==> s[i].totalAmount >= 0.0) ==> r >= 0.0
  {
    if s == [] then 0.0 else SumTotals(s[..|s| - 1]) + s[|s| - 1].totalAmount
  }

  /** Total amount of the invoices dated in the month with key `key`. */
  function MonthSum(s: seq<Invoice>, key: int): real {
    if s == [] then 0.0
    else MonthSum(s[..|s| - 1], key) + (if MonthKey(s[|s| - 1].date) == key then s[|s| - 1].totalAmount else 0.0)
  }

  predicate InRange(m: int, lo: int, n: nat) {
    lo <= m < lo + n
  }

  /** Total amount of the invoices dated in one of the `n` months from `lo`. */
  function SumIn(s: seq<Invoice>, lo: int, n: nat): real {
    if s == [] then 0.0
    else SumIn(s[..|s| - 1], lo, n) + (if InRange(MonthKey(s[|s| - 1].date), lo, n) then s[|s| - 1].totalAmount else 0.0)
  }

  /** Total amount of the invoices dated outside those `n` months. */
  function SumOutside(s: seq<Invoice>, lo: int, n: nat): real {
    if s == [] then 0.0
    else SumOutside(s[..|s| - 1], lo, n) + (if InRange(MonthKey(s[|s| - 1].date), lo, n) then 0.0 else s[|s| - 1].totalAmount)
  }

  /** The keys of the six months ending with the month of `today`, oldest first. */
  function MonthWindow(today: CalendarDate): (w: seq<int>)
    ensures |w| == 6 && w[5] == MonthKey(today)
    ensures forall j :: 0 <= j < 5 ==> w[j + 1] == w[j] + 1
  {
    seq(6, j => MonthKey(today) - 5 + j)
  }

  /** One bucket per month of the window, each holding that month's total. */
  function Buckets(s: seq<Invoice>, lo: int, n: nat): seq<ChartPoint> {
    seq(n, k => ChartPoint(lo + k, MonthSum(s, lo + k)))
  }

  function ChartSpec(s: seq<Invoice>, today: CalendarDate): (c: seq<ChartPoint>)
    ensures |c| == |MonthWindow(today)|
    ensures forall k :: 0 <= k < |c| ==> c[k].month == MonthWindow(today)[k] && c[k].total == MonthSum(s, c[k].month)
  {
    Buckets(s, MonthKey(today) - 5, 6)
  }

  function ChartSum(c: seq<ChartPoint>): real {
    if c == [] then 0.0 else ChartSum(c[..|c| - 1]) + c[|c| - 1].total
  }

  /** `getDashboardStats(factoryId)` with the current date `today`. The
      first loop pre-initialises the six month buckets in insertion order
      (lines 40-48); the second adds each invoice's amount to its month's
      bucket if there is one (lines 50-55). */
  method GetDashboardStats(db: Store.Database, session: Option<UserId>, factoryId: Id, today: CalendarDate)
    returns (r: DashboardResult)
    ensures session.None? <==> r == DashboardError("Unauthorized")
    ensures session.Some? ==>
      var mine := FactoryInvoices(db.invoices, factoryId);
      r == Stats(SumTotals(mine), |mine|, ChartSpec(mine, today))
  {
    if session.None? {
      return DashboardError("Unauthorized");
    }
    var mine := FactoryInvoices(db.invoices, factoryId);
    var totalRevenue := SumTotals(mine);
    var invoiceCount := |mine|;
    var monthlyData, order := InitMonths(today);
    monthlyData := AddAmounts(mine, monthlyData, order);
    var chartData := seq(|order|, k requires 0 <= k < |order| => ChartPoint(order[k], monthlyData[order[k]]));
    r := Stats(totalRevenue, invoiceCount, chartData);
  }

  /** Lines 40-48: one zero bucket per month of the window, and the order in
      which `Object.entries` will list the keys. */
  method InitMonths(today: CalendarDate) returns (monthlyData: map<int, real>, order: seq<int>)
    ensures order == MonthWindow(today)
    ensures forall k :: k in monthlyData <==> k in order
    ensures forall k :: k in monthlyData ==> monthlyData[k] == 0.0
  {
    ghost var window := MonthWindow(today);
    monthlyData, order := map[], [];
    var i := 5;
    while i >= 0
      invariant -1 <= i <= 5
      invariant order == window[..5 - i]
      invariant forall k :: k in monthlyData <==> k in order
      invariant forall k :: k in monthlyData ==> monthlyData[k] == 0.0
    {
      var key := MonthKey(today) - i;
      assert key == window[5 - i];
      if key !in monthlyData {
        order := order + [key];
      }
      monthlyData := monthlyData[key := 0.0];
      i := i - 1;
    }
  }

  /** Lines 50-55: each invoice's amount goes to its month's bucket when
      that bucket exists; no bucket is created. */
  method AddAmounts(mine: seq<Invoice>, init: map<int, real>, order: seq<int>) returns (monthlyData: map<int, real>)
    requires forall k :: k in init <==> k in order
    requires forall k :: k in init ==> init[k] == 0.0
    ensures forall k :: k in monthlyData <==> k in order
    ensures forall k :: k in monthlyData ==> monthlyData[k] == MonthSum(mine, k)
  {
    monthlyData := init;
    var j := 0;
    while j < |mine|
      invariant 0 <= j <= |mine|
      invariant forall k :: k in monthlyData <==> k in order
      invariant forall k :: k in monthlyData ==> monthlyData[k] == MonthSum(mine[..j], k)
    {
      var key := MonthKey(mine[j].date);
      MonthSumExtend(mine, j);
      if key in monthlyData {
        monthlyData := monthlyData[key := monthlyData[key] + mine[j].totalAmount];
      }
      j := j + 1;
    }
    assert mine[..j] == mine;
  }

  lemma MonthSumExtend(s: seq<Invoice>, j: nat)
    requires j < |s|
    ensures forall k ::
      MonthSum(s[..j + 1], k) == MonthSum(s[..j], k) + (if MonthKey(s[j].date) == k then s[j].totalAmount else 0.0)
  {
    assert s[..j + 1][..j] == s[..j];
  }

  lemma MonthSumAppend(s: seq<Invoice>, x: Invoice)
    ensures forall k ::
      MonthSum(s + [x], k) == MonthSum(s, k) + (if MonthKey(x.date) == k then x.totalAmount else 0.0)
  {
    assert (s + [x])[..|s|] == s;
  }

  // ---------------------------------------------------------------------
  // Properties of the aggregates

  /** The chart has six buckets for consecutive months, oldest first, the
      last one being the current month. */
  lemma ChartShape(s: seq<Invoice>, today: CalendarDate)
    ensures var c := ChartSpec(s, today);
      && |c| == 6 && c[5].month == MonthKey(today)
      && (forall k :: 0 <= k < 5 ==> c[k + 1].month == c[k].month + 1)
      && (forall k :: 0 <= k < 6 ==> c[k].total == MonthSum(s, c[k].month))
  {
  }

  /** An invoice dated outside the six months changes no bucket. */
  lemma ChartIgnoresOutside(s: seq<Invoice>, x: Invoice, today: CalendarDate)
    requires !InRange(MonthKey(x.date), MonthKey(today) - 5, 6)
    ensures ChartSpec(s + [x], today) == ChartSpec(s, today)
  {
    MonthSumAppend(s, x);
    var lo := MonthKey(today) - 5;
    forall k | 0 <= k < 6 ensures ChartSpec(s + [x], today)[k] == ChartSpec(s, today)[k] {
      assert MonthKey(x.date) != lo + k;
    }
  }

  /** An invoice dated inside the six months adds its amount to its own
      month's bucket and to no other. */
  lemma ChartCountsInside(s: seq<Invoice>, x: Invoice, today: CalendarDate, k: nat)
    requires k < 6
    ensures var before := ChartSpec(s, today)[k];
      var after := ChartSpec(s + [x], today)[k];
      && after.month == before.month
      && after.total == before.total + (if MonthKey(x.date) == before.month then x.totalAmount else 0.0)
  {
    MonthSumAppend(s, x);
  }

  lemma {:induction false} SumInStep(s: seq<Invoice>, lo: int, n: nat)
    requires n > 0
    ensures SumIn(s, lo, n) == SumIn(s, lo, n - 1) + MonthSum(s, lo + n - 1)
  {
    if s != [] {
      SumInStep(s[..|s| - 1], lo, n);
    }
  }

  /** The buckets add up to the revenue of the invoices dated in the window. */
  lemma {:induction false} BucketsAddUp(s: seq<Invoice>, lo: int, n: nat)
    ensures ChartSum(Buckets(s, lo, n)) == SumIn(s, lo, n)
  {
    if n == 0 {
      ZeroRangeIsEmpty(s, lo);
    } else {
      assert Buckets(s, lo, n)[..n - 1] == Buckets(s, lo, n - 1);
      BucketsAddUp(s, lo, n - 1);
      SumInStep(s, lo, n);
    }
  }

  lemma {:induction false} ZeroRangeIsEmpty(s: seq<Invoice>, lo: int)
    ensures SumIn(s, lo, 0) == 0.0
  {
    if s != [] {
      ZeroRangeIsEmpty(s[..|s| - 1], lo);
    }
  }

  /** Revenue splits into what the chart shows and what falls outside it. */
  lemma {:induction false} RevenueSplits(s: seq<Invoice>, lo: int, n: nat)
    ensures SumTotals(s) == SumIn(s, lo, n) + SumOutside(s, lo, n)
  {
    if s != [] {
      RevenueSplits(s[..|s| - 1], lo, n);
    }
  }

  /** The chart's buckets together, plus the invoices dated outside the
      window, make up the factory's total revenue. */
  lemma ChartAndOlderMakeRevenue(s: seq<Invoice>, today: CalendarDate)
    ensures ChartSum(ChartSpec(s, today)) + SumOutside(s, MonthKey(today) - 5, 6) == SumTotals(s)
  {
    BucketsAddUp(s, MonthKey(today) - 5, 6);
    RevenueSplits(s, MonthKey(today) - 5, 6);
  }

  /** Creating an invoice for the factory raises its revenue by the new
      invoice's total and its count by one; an invoice of another factory
      changes neither. */
  lemma RevenueAfterInsert(invs: seq<Invoice>, h: Invoice, factoryId: Id)
    ensures var before := FactoryInvoices(invs, factoryId);
      var after := FactoryInvoices(invs + [h], factoryId);
      && SumTotals(after) == SumTotals(before) + (if h.factoryId == factoryId then h.totalAmount else 0.0)
      && |after| == |before| + (if h.factoryId == factoryId then 1 else 0)
  {
    var p := (inv: Invoice) => inv.factoryId == factoryId;
    var before := FactoryInvoices(invs, factoryId);
    FilterConcat(invs, [h], p);
    assert [h][1..] == [];
    if p(h) {
      assert FactoryInvoices(invs + [h], factoryId) == before + [h];
      assert (before + [h])[..|before|] == before;
    } else {
      assert FactoryInvoices(invs + [h], factoryId) == before + [];
      assert before + [] == before;
    }
  }

  // ---------------------------------------------------------------------
  // The window as the code computes it

  predicate IsLeap(y: int) {
    y % 4 == 0 && (y % 100 != 0 || y % 400 == 0)
  }

  function DaysInMonth(y: int, m: Month): int {
    if m == 2 then (if IsLeap(y) then 29 else 28)
    else if m == 4 || m == 6 || m == 9 || m == 11 then 30
    else 31
  }

  /** The month `d.setMonth(d.getMonth() - i)` lands in when `d` is `today`:
      the day of the month is kept, and a day the target month does not have
      rolls over into the following month. */
  function AsWrittenMonthBack(today: CalendarDate, i: nat): (m: int)
    requires 1 <= today.day <= 31
    ensures MonthKey(today) - i <= m <= MonthKey(today) - i + 1
    ensures today.day <= 28 ==> m == MonthKey(today) - i
  {
    var target := MonthKey(today) - i;
    if today.day > DaysInMonth(target / 12, target % 12 + 1) then target + 1 else target
  }

  /** The keys of a JavaScript object assigned in this order, in the order
      `Object.entries` lists them: each key at its first assignment. */
  function InsertionOrder(keys: seq<int>): (r: seq<int>)
    ensures |r| <= |keys| && forall k :: k in r <==> k in keys
  {
    if keys == [] then []
    else
      var front := InsertionOrder(keys[..|keys| - 1]);
      if keys[|keys| - 1] in front then front else front + [keys[|keys| - 1]]
  }

  /** An object holds each key once. */
  lemma {:induction false} InsertionOrderDistinct(keys: seq<int>)
    ensures Distinct(InsertionOrder(keys))
  {
    if keys != [] {
      InsertionOrderDistinct(keys[..|keys| - 1]);
    }
  }

  /** The bucket keys lines 43-48 produce, in chart order. */
  function AsWrittenWindow(today: CalendarDate): (w: seq<int>)
    requires 1 <= today.day <= 31
    ensures Distinct(w) && 1 <= |w| <= 6
    ensures forall m :: m in w ==> MonthKey(today) - 5 <= m <= MonthKey(today) + 1
  {
    var keys := seq(6, j requires 0 <= j < 6 => AsWrittenMonthBack(today, 5 - j));
    InsertionOrderDistinct(keys);
    InsertionOrder(keys)
  }

  /** The months lines 43-47 compute on 31 December 2025, before the
      object drops repeated keys. */
  lemma DecemberThirtyFirstMonths()
    ensures var today := CalendarDate(2025, 12, 31);
      seq(6, j requires 0 <= j < 6 => AsWrittenMonthBack(today, 5 - j))
        == [24306, 24307, 24309, 24309, 24311, 24311]
  {
    var today := CalendarDate(2025, 12, 31);
    assert AsWrittenMonthBack(today, 5) == 24306 by { assert 24306 / 12 == 2025 && 24306 % 12 == 6; }
    assert AsWrittenMonthBack(today, 4) == 24307 by { assert 24307 / 12 == 2025 && 24307 % 12 == 7; }
    assert AsWrittenMonthBack(today, 3) == 24309 by { assert 24308 / 12 == 2025 && 24308 % 12 == 8; }
    assert AsWrittenMonthBack(today, 2) == 24309 by { assert 24309 / 12 == 2025 && 24309 % 12 == 9; }
    assert AsWrittenMonthBack(today, 1) == 24311 by { assert 24310 / 12 == 2025 && 24310 % 12 == 10; }
    assert AsWrittenMonthBack(today, 0) == 24311 by { assert 24311 / 12 == 2025 && 24311 % 12 == 11; }
  }

  lemma RepeatedKeysDropped()
    ensures InsertionOrder([24306, 24307, 24309, 24309, 24311, 24311]) == [24306, 24307, 24309, 24311]
  {
    var keys := [24306, 24307, 24309, 24309, 24311, 24311];
    assert keys[..5][..4] == keys[..4] && keys[..4][..3] == keys[..3] && keys[..3][..2] == keys[..2];
    assert keys[..2][..1] == keys[..1] && keys[..1][..0] == [] && keys[..6] == keys && keys[..6][..5] == keys[..5];
    assert InsertionOrder(keys[..1]) == [24306];
    assert InsertionOrder(keys[..2]) == [24306, 24307];
    assert InsertionOrder(keys[..3]) == [24306, 24307, 24309];
    assert InsertionOrder(keys[..4]) == [24306, 24307, 24309];
    assert InsertionOrder(keys[..5]) == [24306, 24307, 24309, 24311];
  }

  /** On 31 December 2025 the code initialises only four buckets (July,
      August, October, December): September and November are never
      created, so their invoices count nowhere. */
  lemma AsWrittenWindowSkipsMonths()
    ensures var today := CalendarDate(2025, 12, 31);
      && AsWrittenWindow(today) == [2025 * 12 + 6, 2025 * 12 + 7, 2025 * 12 + 9, 2025 * 12 + 11]
      && MonthKey(CalendarDate(2025, 9, 1)) !in AsWrittenWindow(today)
      && MonthKey(CalendarDate(2025, 11, 1)) !in AsWrittenWindow(today)
  {
    DecemberThirtyFirstMonths();
    RepeatedKeysDropped();
  }

  /** The intended window: six distinct buckets covering exactly the months
      from five months back to the current one, whatever the day. */
  lemma MonthWindowIsLastSixMonths(today: CalendarDate)
    ensures Distinct(MonthWindow(today))
    ensures forall m :: m in MonthWindow(today) <==> MonthKey(today) - 5 <= m <= MonthKey(today)
    ensures InsertionOrder(MonthWindow(today)) == MonthWindow(today)
  {
    var w := MonthWindow(today);
    forall m | MonthKey(today) - 5 <= m <= MonthKey(today) ensures m in w {
      assert w[m - MonthKey(today) + 5] == m;
    }
    InsertionOrderOfIncreasing(w);
  }

  /** Up to the 28th of a month every target month has today's day, so the
      code's window is the intended one: the two differ only on days 29-31. */
  lemma WindowsAgreeEarlyInMonth(today: CalendarDate)
    requires 1 <= today.day <= 28
    ensures AsWrittenWindow(today) == MonthWindow(today)
  {
    var keys := seq(6, j requires 0 <= j < 6 => AsWrittenMonthBack(today, 5 - j));
    assert keys == MonthWindow(today);
    InsertionOrderOfIncreasing(keys);
  }

  lemma {:induction false} InsertionOrderOfIncreasing(keys: seq<int>)
    requires forall a, b :: 0 <= a < b < |keys| ==> keys[a] < keys[b]
    ensures InsertionOrder(keys) == keys
  {
    if keys != [] {
      var front := keys[..|keys| - 1];
      InsertionOrderOfIncreasing(front);
      assert keys[|keys| - 1] !in front by {
        forall a | 0 <= a < |front| ensures front[a] != keys[|keys| - 1] {
          assert keys[a] < keys[|keys| - 1];
        }
      }
    }
  }
}
