/** The yearly roll-up of sales and expenses, where every month is rounded to cents before it is added. */
module Rollup {
  import opened Rounding

  /** Euros as they come from the database. */
  datatype SalesMonth = SalesMonth(count: int, countTosti: int, countAvondeten: int, revenue: real, tosti: real,
      avondeten: real,
                                   cardTosti: real, cardAvondeten: real, bankTosti: real, bankAvondeten: real)

  datatype ExpenseMonth = ExpenseMonth(lunchkraam: real, avondeten: real)

  datatype MonthRow = MonthRow(month: int, count: int, revenue: real, cardSales: real, bankUnmatched: real,
      expenses: real, net: real)

  datatype YearRollup = YearRollup(
    monthly: seq<MonthRow>, count: int, countTosti: int, countAvondeten: int,
    revenue: real, tosti: real, avondeten: real, cardTosti: real, cardAvondeten: real, bankTosti: real,
        bankAvondeten: real,
    expenses: real, expensesLunchkraam: real, expensesAvondeten: real, net: real)

  // ----- Columns in whole cents -----

  function InCents(v: real): int { Round(v * 100.0) }

  function SumTo<T>(s: seq<T>, f: T -> int, n: nat): int
    requires n <= |s|
  {
    if n == 0 then 0 else SumTo(s, f, n - 1) + f(s[n - 1])
  }

  function RevenueCents(b: SalesMonth): int { InCents(b.revenue) }
  function TostiCents(b: SalesMonth): int { InCents(b.tosti) }
  function AvondetenCents(b: SalesMonth): int { InCents(b.avondeten) }
  function CardTostiCents(b: SalesMonth): int { InCents(b.cardTosti) }
  function CardAvondetenCents(b: SalesMonth): int { InCents(b.cardAvondeten) }
  function BankTostiCents(b: SalesMonth): int { InCents(b.bankTosti) }
  function BankAvondetenCents(b: SalesMonth): int { InCents(b.bankAvondeten) }
  function LunchExpenseCents(e: ExpenseMonth): int { InCents(e.lunchkraam) }
  function AvondetenExpenseCents(e: ExpenseMonth): int { InCents(e.avondeten) }
  function ExpenseCents(e: ExpenseMonth): int { LunchExpenseCents(e) + AvondetenExpenseCents(e) }
  function NetCents(row: MonthRow): int { InCents(row.net) }
  function CountOf(b: SalesMonth): int { b.count }
  function CountTostiOf(b: SalesMonth): int { b.countTosti }
  function CountAvondetenOf(b: SalesMonth): int { b.countAvondeten }

  lemma RoundIsCents(v: real)
    ensures RoundEUR(v) == Eur(InCents(v))
  {}

  lemma EurAdds(a: int, b: int)
    ensures Eur(a) + Eur(b) == Eur(a + b) && Eur(a) - Eur(b) == Eur(a - b)
  {}

  // ----- The loop -----

  /** The year totals while the loop runs, before the closing round. */
  ghost predicate Totals(r: YearRollup, buckets: seq<SalesMonth>, expenses: seq<ExpenseMonth>, n: nat)
    requires n <= |buckets| == |expenses|
  {
    && r.revenue == Eur(SumTo(buckets, RevenueCents, n))
    && r.tosti == Eur(SumTo(buckets, TostiCents, n))
    && r.avondeten == Eur(SumTo(buckets, AvondetenCents, n))
    && r.cardTosti == Eur(SumTo(buckets, CardTostiCents, n))
    && r.cardAvondeten == Eur(SumTo(buckets, CardAvondetenCents, n))
    && r.bankTosti == Eur(SumTo(buckets, BankTostiCents, n))
    && r.bankAvondeten == Eur(SumTo(buckets, BankAvondetenCents, n))
    && r.expensesLunchkraam == Eur(SumTo(expenses, LunchExpenseCents, n))
    && r.expensesAvondeten == Eur(SumTo(expenses, AvondetenExpenseCents, n))
    && r.expenses == Eur(SumTo(expenses, ExpenseCents, n))
    && r.count == SumTo(buckets, CountOf, n) && r.countTosti == SumTo(buckets, CountTostiOf, n)
    && r.countAvondeten == SumTo(buckets, CountAvondetenOf, n)
  }

  /** A month's row: revenue and expenses in cents, net is their exact difference. */
  ghost predicate RowFits(row: MonthRow, b: SalesMonth, e: ExpenseMonth) {
    && row.revenue == Eur(RevenueCents(b)) && row.expenses == Eur(ExpenseCents(e))
    && row.net == Eur(RevenueCents(b) - ExpenseCents(e)) && row.count == b.count
    && row.cardSales == Eur(CardTostiCents(b) + CardAvondetenCents(b))
    && row.bankUnmatched == Eur(BankTostiCents(b) + BankAvondetenCents(b))
  }

  function MonthOf(month: int, b: SalesMonth, e: ExpenseMonth): MonthRow {
    var rev := RoundEUR(b.revenue);
    var revCard := RoundEUR(RoundEUR(b.cardTosti) + RoundEUR(b.cardAvondeten));
    var revBank := RoundEUR(RoundEUR(b.bankTosti) + RoundEUR(b.bankAvondeten));
    var exp := RoundEUR(RoundEUR(e.lunchkraam) + RoundEUR(e.avondeten));
    MonthRow(month, b.count, rev, revCard, revBank, exp, RoundEUR(rev - exp))
  }

  /** The totals with one more month added. */
  function Accumulate(r: YearRollup, month: int, b: SalesMonth, e: ExpenseMonth): YearRollup {
    var row := MonthOf(month, b, e);
    r.(monthly := r.monthly + [row],
       count := r.count + b.count, countTosti := r.countTosti + b.countTosti,
           countAvondeten := r.countAvondeten + b.countAvondeten,
       revenue := r.revenue + row.revenue, tosti := r.tosti + RoundEUR(b.tosti),
           avondeten := r.avondeten + RoundEUR(b.avondeten),
       cardTosti := r.cardTosti + RoundEUR(b.cardTosti), cardAvondeten := r.cardAvondeten + RoundEUR(b.cardAvondeten),
       bankTosti := r.bankTosti + RoundEUR(b.bankTosti), bankAvondeten := r.bankAvondeten + RoundEUR(b.bankAvondeten),
       expenses := r.expenses + row.expenses,
       expensesLunchkraam := r.expensesLunchkraam + RoundEUR(e.lunchkraam),
           expensesAvondeten := r.expensesAvondeten + RoundEUR(e.avondeten))
  }

  lemma MonthFits(month: int, b: SalesMonth, e: ExpenseMonth)
    ensures RowFits(MonthOf(month, b, e), b, e)
  {
    hide RoundEUR, Eur, InCents;
    RoundIsCents(b.revenue);
    RoundIsCents(b.cardTosti);
    RoundIsCents(b.cardAvondeten);
    RoundIsCents(b.bankTosti);
    RoundIsCents(b.bankAvondeten);
    RoundIsCents(e.lunchkraam);
    RoundIsCents(e.avondeten);
    RoundSum(CardTostiCents(b), CardAvondetenCents(b));
    RoundSum(BankTostiCents(b), BankAvondetenCents(b));
    RoundSum(LunchExpenseCents(e), AvondetenExpenseCents(e));
    RoundSum(RevenueCents(b), ExpenseCents(e));
  }

  lemma AddsMonth(r: YearRollup, buckets: seq<SalesMonth>, expenses: seq<ExpenseMonth>, n: nat)
    requires n < |buckets| == |expenses| && Totals(r, buckets, expenses, n)
    ensures Totals(Accumulate(r, n + 1, buckets[n], expenses[n]), buckets, expenses, n + 1)
  {
    var b, e := buckets[n], expenses[n];
    MonthFits(n + 1, b, e);
    hide RoundEUR, Eur, InCents, MonthOf;
    RoundIsCents(b.tosti);
    RoundIsCents(b.avondeten);
    RoundIsCents(b.cardTosti);
    RoundIsCents(b.cardAvondeten);
    RoundIsCents(b.bankTosti);
    RoundIsCents(b.bankAvondeten);
    RoundIsCents(e.lunchkraam);
    RoundIsCents(e.avondeten);
    EurAdds(SumTo(buckets, RevenueCents, n), RevenueCents(b));
    EurAdds(SumTo(buckets, TostiCents, n), TostiCents(b));
    EurAdds(SumTo(buckets, AvondetenCents, n), AvondetenCents(b));
    EurAdds(SumTo(buckets, CardTostiCents, n), CardTostiCents(b));
    EurAdds(SumTo(buckets, CardAvondetenCents, n), CardAvondetenCents(b));
    EurAdds(SumTo(buckets, BankTostiCents, n), BankTostiCents(b));
    EurAdds(SumTo(buckets, BankAvondetenCents, n), BankAvondetenCents(b));
    EurAdds(SumTo(expenses, LunchExpenseCents, n), LunchExpenseCents(e));
    EurAdds(SumTo(expenses, AvondetenExpenseCents, n), AvondetenExpenseCents(e));
    EurAdds(SumTo(expenses, ExpenseCents, n), ExpenseCents(e));
  }

  /** Every total in the result is a whole number of cents, the sum of its rounded months; year net is revenue less
      expenses, and the sum of the monthly nets. */
  method BuildAdminSalesYearRollup(buckets: seq<SalesMonth>, expenses: seq<ExpenseMonth>) returns (r: YearRollup)
    requires |buckets| == 12 && |expenses| == 12
    ensures Totals(r, buckets, expenses, 12)
    ensures |r.monthly| == 12
    ensures forall i :: 0 <= i < 12 ==> r.monthly[i].month == i + 1
    ensures forall i :: 0 <= i < 12 ==> RowFits(r.monthly[i], buckets[i], expenses[i])
    ensures r.net == r.revenue - r.expenses
    ensures r.net == Eur(SumTo(r.monthly, NetCents, 12))
    ensures (forall i :: 0 <= i < 12 ==> buckets[i].revenue == buckets[i].tosti + buckets[i].avondeten)
      ==> -0.12 <= r.revenue - (r.tosti + r.avondeten) <= 0.12
    ensures (forall i :: 0 <= i < 12 ==> InWholeCents(buckets[i])) ==> r.revenue == r.tosti + r.avondeten
  {
    hide Accumulate, Totals, RowFits, RoundEUR, Eur;
    r := YearRollup([], 0, 0, 0, 0.0, 0.0, 0.0, 0.0, 0.0, 0.0, 0.0, 0.0, 0.0, 0.0, 0.0);
    NothingYet(r, buckets, expenses);
    for i := 0 to 12
      invariant Totals(r, buckets, expenses, i) && |r.monthly| == i
      invariant forall k :: 0 <= k < i ==> r.monthly[k].month == k + 1 && RowFits(r.monthly[k], buckets[k], expenses[k])
    {
      AddsMonth(r, buckets, expenses, i);
      AddsRow(r, i + 1, buckets[i], expenses[i]);
      r := Accumulate(r, i + 1, buckets[i], expenses[i]);
    }
    AlreadyRounded(r, buckets, expenses);
    r := Closed(r);
    NetAddsUp(r, buckets, expenses);
    if forall i :: 0 <= i < 12 ==>
      buckets[i].revenue == buckets[i].tosti + buckets[i].avondeten { SplitBound(r, buckets, expenses); }
    if forall i :: 0 <= i < 12 ==> InWholeCents(buckets[i]) { SplitExact(r, buckets, expenses); }
  }

  /** The closing round of every total. */
  function Closed(r: YearRollup): YearRollup {
    r.(revenue := RoundEUR(r.revenue), tosti := RoundEUR(r.tosti), avondeten := RoundEUR(r.avondeten),
       cardTosti := RoundEUR(r.cardTosti), cardAvondeten := RoundEUR(r.cardAvondeten),
       bankTosti := RoundEUR(r.bankTosti), bankAvondeten := RoundEUR(r.bankAvondeten),
       expenses := RoundEUR(r.expenses), expensesLunchkraam := RoundEUR(r.expensesLunchkraam),
           expensesAvondeten := RoundEUR(r.expensesAvondeten),
       net := RoundEUR(RoundEUR(r.revenue) - RoundEUR(r.expenses)))
  }

  lemma NothingYet(r: YearRollup, buckets: seq<SalesMonth>, expenses: seq<ExpenseMonth>)
    requires |buckets| == |expenses|
    requires r == YearRollup([], 0, 0, 0, 0.0, 0.0, 0.0, 0.0, 0.0, 0.0, 0.0, 0.0, 0.0, 0.0, 0.0)
    ensures Totals(r, buckets, expenses, 0)
  {}

  lemma AddsRow(r: YearRollup, month: int, b: SalesMonth, e: ExpenseMonth)
    ensures Accumulate(r, month, b, e).monthly == r.monthly + [MonthOf(month, b, e)]
    ensures MonthOf(month, b, e).month == month && RowFits(MonthOf(month, b, e), b, e)
  {
    MonthFits(month, b, e);
  }

  lemma AlreadyRounded(r: YearRollup, buckets: seq<SalesMonth>, expenses: seq<ExpenseMonth>)
    requires |buckets| == |expenses| == 12 && Totals(r, buckets, expenses, 12)
    ensures Totals(Closed(r), buckets, expenses, 12) && Closed(r).monthly == r.monthly
      && Closed(r).net == Closed(r).revenue - Closed(r).expenses
  {
    hide RoundEUR, Eur;
    forall c ensures RoundEUR(Eur(c)) == Eur(c) { RoundCents(c); }
    RoundSum(SumTo(buckets, RevenueCents, 12), SumTo(expenses, ExpenseCents, 12));
    EurAdds(SumTo(buckets, RevenueCents, 12), SumTo(expenses, ExpenseCents, 12));
  }

  lemma NetAddsUp(r: YearRollup, buckets: seq<SalesMonth>, expenses: seq<ExpenseMonth>)
    requires |buckets| == |expenses| == |r.monthly| == 12 && Totals(r, buckets, expenses, 12)
    requires forall i :: 0 <= i < 12 ==> RowFits(r.monthly[i], buckets[i], expenses[i])
    requires r.net == r.revenue - r.expenses
    ensures r.net == Eur(SumTo(r.monthly, NetCents, 12))
  {
    NetSum(r.monthly, buckets, expenses, 12);
    EurAdds(SumTo(buckets, RevenueCents, 12), SumTo(expenses, ExpenseCents, 12));
  }

  lemma {:induction false} NetSum(rows: seq<MonthRow>, buckets: seq<SalesMonth>, expenses: seq<ExpenseMonth>, n: nat)
    requires n <= |rows| == |buckets| == |expenses|
    requires forall i :: 0 <= i < n ==> RowFits(rows[i], buckets[i], expenses[i])
    ensures SumTo(rows, NetCents, n) == SumTo(buckets, RevenueCents, n) - SumTo(expenses, ExpenseCents, n)
  {
    if n > 0 {
      NetSum(rows, buckets, expenses, n - 1);
      NetOfRow(rows[n - 1], buckets[n - 1], expenses[n - 1]);
    }
  }

  lemma NetOfRow(row: MonthRow, b: SalesMonth, e: ExpenseMonth)
    requires RowFits(row, b, e)
    ensures NetCents(row) == RevenueCents(b) - ExpenseCents(e)
  {
    var c := RevenueCents(b) - ExpenseCents(e);
    assert Eur(c) * 100.0 == c as real;
    RoundWhole(c);
  }

  // ----- How far the splits can be from the whole -----

  /** Rounding a sum and summing the rounded parts differ by at most one cent. */
  lemma OneCent(x: real, y: real)
    ensures -1 <= InCents(x + y) - (InCents(x) + InCents(y)) <= 1
  {
    RoundIsNear((x + y) * 100.0);
    RoundIsNear(x * 100.0);
    RoundIsNear(y * 100.0);
    assert (x + y) * 100.0 == x * 100.0 + y * 100.0;
  }

  lemma {:induction false} SplitSum(buckets: seq<SalesMonth>, n: nat)
    requires n <= |buckets| && forall i :: 0 <= i < n ==> buckets[i].revenue == buckets[i].tosti + buckets[i].avondeten
    ensures 0 - n
      <= SumTo(buckets, RevenueCents, n) - (SumTo(buckets, TostiCents, n) + SumTo(buckets, AvondetenCents, n)) <= n
  {
    if n > 0 {
      SplitSum(buckets, n - 1);
      OneCent(buckets[n - 1].tosti, buckets[n - 1].avondeten);
    }
  }

  lemma SplitBound(r: YearRollup, buckets: seq<SalesMonth>, expenses: seq<ExpenseMonth>)
    requires |buckets| == |expenses| == 12 && Totals(r, buckets, expenses, 12)
    requires forall i :: 0 <= i < 12 ==> buckets[i].revenue == buckets[i].tosti + buckets[i].avondeten
    ensures -0.12 <= r.revenue - (r.tosti + r.avondeten) <= 0.12
  {
    SplitSum(buckets, 12);
  }

  /** Tosti and avondeten are whole cents and revenue is their sum. */
  ghost predicate InWholeCents(b: SalesMonth) {
    b.tosti == Eur(InCents(b.tosti)) && b.avondeten == Eur(InCents(b.avondeten)) && b.revenue == b.tosti + b.avondeten
  }

  lemma {:induction false} ExactSum(buckets: seq<SalesMonth>, n: nat)
    requires n <= |buckets| && forall i :: 0 <= i < n ==> InWholeCents(buckets[i])
    ensures SumTo(buckets, RevenueCents, n) == SumTo(buckets, TostiCents, n) + SumTo(buckets, AvondetenCents, n)
  {
    if n > 0 {
      ExactSum(buckets, n - 1);
      WholeMonth(buckets[n - 1]);
    }
  }

  lemma WholeMonth(b: SalesMonth)
    requires InWholeCents(b)
    ensures RevenueCents(b) == TostiCents(b) + AvondetenCents(b)
  {
    var t, a := InCents(b.tosti), InCents(b.avondeten);
    EurAdds(t, a);
    assert b.revenue == Eur(t + a) && Eur(t + a) * 100.0 == (t + a) as real;
    RoundWhole(t + a);
  }

  lemma SplitExact(r: YearRollup, buckets: seq<SalesMonth>, expenses: seq<ExpenseMonth>)
    requires |buckets| == |expenses| == 12 && Totals(r, buckets, expenses, 12)
    requires forall i :: 0 <= i < 12 ==> InWholeCents(buckets[i])
    ensures r.revenue == r.tosti + r.avondeten
  {
    ExactSum(buckets, 12);
  }

  const HALF_CENTS := SalesMonth(0, 0, 0, 0.01, 0.005, 0.005, 0.0, 0.0, 0.0, 0.0)

  /** Twelve cents is reached: twelve months of half a cent on each side. */
  lemma BoundIsTight()
    ensures SumTo(seq(12, _ => HALF_CENTS), RevenueCents, 12)
         == SumTo(seq(12, _ => HALF_CENTS), TostiCents, 12) + SumTo(seq(12, _ => HALF_CENTS), AvondetenCents, 12) - 12
  {
    assert RevenueCents(HALF_CENTS) == 1 && TostiCents(HALF_CENTS) == 1 && AvondetenCents(HALF_CENTS) == 1;
    SumConstant(RevenueCents, 12);
    SumConstant(TostiCents, 12);
    SumConstant(AvondetenCents, 12);
  }

  lemma {:induction false} SumConstant(f: SalesMonth -> int, n: nat)
    requires n <= 12 && f(HALF_CENTS) == 1
    ensures SumTo(seq(12, _ => HALF_CENTS), f, n) == n
  {
    if n > 0 { SumConstant(f, n - 1); }
  }
}
