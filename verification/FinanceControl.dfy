/** Monthly reports over sales and bank credits, and the control of one against the other. */
module FinanceControl {
  import opened Prelude
  import opened Ledger
  import opened Calendar
  import opened BankCredits
  import opened Reconciliation
  import opened Rounding

  /** A signed administrative adjustment, in cents. */
  datatype Correction = Correction(recorded: Date, amount: int)

  const KINDS := {Tosti, Avondeten}
  const PURPOSES := {LunchPurpose, AvondetenPurpose}
  const STATUSES := {OpenRevenue, MatchedSale, Waived}

  // ----- What a report column means: sums over the months lo <= month < hi -----

  function SoldIn(kinds: set<Kind>): (int, int) -> (nat, Request) -> int {
    (lo, hi) => (r, row: Request) =>
      if row.status.Fulfilled? && row.kind in kinds && lo <= row.status.month < hi then PriceOf(row) else 0
  }

  function CountIn(kinds: set<Kind>): (int, int) -> (nat, Request) -> int {
    (lo, hi) => (r, row: Request) =>
      if row.status.Fulfilled? && row.kind in kinds && lo <= row.status.month < hi then 1 else 0
  }

  function ReceivedIn(purposes: set<Purpose>, statuses: set<CreditStatus>): (int, int) -> (nat, Credit) -> int {
    (lo, hi) => (b, row: Credit) =>
      if row.purpose in purposes && row.status in statuses && lo <= MonthOf(row.received) < hi then row.amount else 0
  }

  function CorrectedIn(): (int, int) -> (nat, Correction) -> int {
    (lo, hi) => (b, row: Correction) => if lo <= MonthOf(row.recorded) < hi then row.amount else 0
  }

  function SumIn<T>(table: Table<T>, w: (int, int) -> (nat, T) -> int, lo: int, hi: int): int {
    Total(table.rows, w(lo, hi), table.next)
  }

  function Sales(o: Office, kinds: set<Kind>, lo: int, hi: int): int { SumIn(o.db.requests, SoldIn(kinds), lo, hi) }
  function Count(o: Office, kinds: set<Kind>, lo: int, hi: int): int { SumIn(o.db.requests, CountIn(kinds), lo, hi) }
  function Received(o: Office, purposes: set<Purpose>, statuses: set<CreditStatus>, lo: int, hi: int): int {
    SumIn(o.credits, ReceivedIn(purposes, statuses), lo, hi)
  }

  // ----- GROUP BY month -----

  datatype MonthRow<T> = MonthRow(month: int, value: T)

  /** One row for every month 1..m of the year in which a table row falls, in order. */
  function GroupByMonth<T>(present: int -> bool, value: int -> T, m: nat): seq<MonthRow<T>> {
    if m == 0 then []
    else if present(m) then GroupByMonth(present, value, m - 1) + [MonthRow(m, value(m))]
    else GroupByMonth(present, value, m - 1)
  }

  /** What a bucket holds after writing the rows in order. */
  function Lookup<T>(rows: seq<MonthRow<T>>, month: int, zero: T): T {
    if rows == [] then zero
    else if rows[|rows| - 1].month == month then rows[|rows| - 1].value
    else Lookup(rows[..|rows| - 1], month, zero)
  }

  lemma {:induction false} GroupLookup<T>(present: int -> bool, value: int -> T, m: nat, month: int, zero: T)
    ensures Lookup(GroupByMonth(present, value, m), month, zero) == if 1 <= month <= m
      && present(month) then value(month) else zero
  {
    if m > 0 {
      GroupLookup(present, value, m - 1, month, zero);
      if present(m) {
        var rows := GroupByMonth(present, value, m);
        assert rows[..|rows| - 1] == GroupByMonth(present, value, m - 1);
      }
    }
  }

  /** The loop that every monthly report runs over its rows: twelve buckets that start at zero. */
  method FillBuckets<T(0)>(rows: seq<MonthRow<T>>, zero: T) returns (buckets: array<T>)
    ensures fresh(buckets) && buckets.Length == 12
    ensures forall k :: 0 <= k < 12 ==> buckets[k] == Lookup(rows, k + 1, zero)
  {
    buckets := new T[12](_ => zero);
    for n := 0 to |rows|
      invariant forall k :: 0 <= k < 12 ==> buckets[k] == Lookup(rows[..n], k + 1, zero)
    {
      assert rows[..n + 1][..n] == rows[..n];
      var index := rows[n].month - 1;
      if 0 <= index < 12 { buckets[index] := rows[n].value; }
    }
    assert rows[..|rows|] == rows;
  }

  /** Both steps together: the twelve values of the query, zero where it has no row. */
  method MonthColumn<T(0)>(present: int -> bool, value: int -> T, zero: T) returns (buckets: array<T>)
    requires forall m :: !present(m) ==> value(m) == zero
    ensures fresh(buckets) && buckets.Length == 12
    ensures forall k :: 0 <= k < 12 ==> buckets[k] == value(k + 1)
  {
    var rows := GroupByMonth(present, value, 12);
    buckets := FillBuckets(rows, zero);
    forall k | 0 <= k < 12 ensures buckets[k] == value(k + 1) { GroupLookup(present, value, 12, k + 1, zero); }
  }

  // ----- Monthly reports -----

  datatype Pair = Pair(lunchkraam: int, avondeten: int)
  datatype CardSales = CardSales(count: int, revenue: int, countTosti: int, countAvondeten: int, tosti: int,
      avondeten: int)

  /** Revenue columns hold sales plus open credits; the card and bank columns hold the two parts. */
  datatype MonthReport = MonthReport(count: int, revenue: int, countTosti: int, countAvondeten: int, tosti: int,
      avondeten: int,
                                     cardTosti: int, cardAvondeten: int, bankTosti: int, bankAvondeten: int)

  predicate HasSale(o: Office, mo: int) {
    exists r ::
      r in o.db.requests.rows && o.db.requests.rows[r].status.Fulfilled? && o.db.requests.rows[r].status.month == mo
  }

  predicate HasCredit(o: Office, statuses: set<CreditStatus>, mo: int) {
    exists b :: b in o.credits.rows && o.credits.rows[b].status in statuses && MonthOf(o.credits.rows[b].received) == mo
  }

  predicate HasCorrection(t: Table<Correction>, mo: int) {
    exists b :: b in t.rows && MonthOf(t.rows[b].recorded) == mo
  }

  function CardSalesIn(o: Office, mo: int): CardSales {
    CardSales(Count(o, KINDS, mo, mo + 1), Sales(o, KINDS, mo, mo + 1), Count(o, {Tosti}, mo, mo + 1),
        Count(o, {Avondeten}, mo, mo + 1),
              Sales(o, {Tosti}, mo, mo + 1), Sales(o, {Avondeten}, mo, mo + 1))
  }

  function OpenCreditsIn(o: Office, mo: int): Pair {
    Pair(Received(o, {LunchPurpose}, {OpenRevenue}, mo, mo + 1),
        Received(o, {AvondetenPurpose}, {OpenRevenue}, mo, mo + 1))
  }

  function RevolutIn(o: Office, mo: int): int { Received(o, PURPOSES, STATUSES, mo, mo + 1) }
  function AppIn(o: Office,
      mo: int): int { Sales(o, KINDS, mo, mo + 1) + Received(o, PURPOSES, {OpenRevenue}, mo, mo + 1) }
  function CorrectionsIn(t: Table<Correction>, mo: int): int { SumIn(t, CorrectedIn(), mo, mo + 1) }

  lemma NoSaleIsZero(o: Office, mo: int)
    requires !HasSale(o, mo)
    ensures CardSalesIn(o, mo) == CardSales(0, 0, 0, 0, 0, 0)
  {
    var t := o.db.requests;
    TotalZero(t.rows, CountIn(KINDS)(mo, mo + 1), t.next);
    TotalZero(t.rows, SoldIn(KINDS)(mo, mo + 1), t.next);
    TotalZero(t.rows, CountIn({Tosti})(mo, mo + 1), t.next);
    TotalZero(t.rows, CountIn({Avondeten})(mo, mo + 1), t.next);
    TotalZero(t.rows, SoldIn({Tosti})(mo, mo + 1), t.next);
    TotalZero(t.rows, SoldIn({Avondeten})(mo, mo + 1), t.next);
  }

  lemma NoCreditIsZero(o: Office, purposes: set<Purpose>, statuses: set<CreditStatus>, mo: int)
    requires !HasCredit(o, statuses, mo)
    ensures Received(o, purposes, statuses, mo, mo + 1) == 0
  {
    TotalZero(o.credits.rows, ReceivedIn(purposes, statuses)(mo, mo + 1), o.credits.next);
  }

  method AdminCardRequestSalesByMonth(o: Office, year: int) returns (buckets: array<CardSales>)
    ensures fresh(buckets) && buckets.Length == 12
    ensures forall i :: 0 <= i < 12 ==> buckets[i] == CardSalesIn(o, 12 * year + i)
  {
    forall mo | !HasSale(o, mo) ensures CardSalesIn(o, mo) == CardSales(0, 0, 0, 0, 0, 0) {
      NoSaleIsZero(o, mo);
    }
    hide CardSalesIn, HasSale;
    buckets := MonthColumn(m => HasSale(o, 12 * year + m - 1), m => CardSalesIn(o, 12 * year + m - 1),
        CardSales(0, 0, 0, 0, 0, 0));
  }

  method AdminBankCreditRevenueByMonth(o: Office, year: int) returns (buckets: array<Pair>)
    ensures fresh(buckets) && buckets.Length == 12
    ensures forall i :: 0 <= i < 12 ==> buckets[i] == OpenCreditsIn(o, 12 * year + i)
  {
    forall mo | !HasCredit(o, {OpenRevenue}, mo) ensures OpenCreditsIn(o, mo) == Pair(0, 0) {
      NoCreditIsZero(o, {LunchPurpose}, {OpenRevenue}, mo);
      NoCreditIsZero(o, {AvondetenPurpose}, {OpenRevenue}, mo);
    }
    hide OpenCreditsIn, HasCredit;
    buckets := MonthColumn(m => HasCredit(o, {OpenRevenue}, 12 * year + m - 1),
        m => OpenCreditsIn(o, 12 * year + m - 1), Pair(0, 0));
  }

  method AdminRevolutImportedTotalsByMonth(o: Office, year: int) returns (totals: array<int>)
    ensures fresh(totals) && totals.Length == 12
    ensures forall i :: 0 <= i < 12 ==> totals[i] == RevolutIn(o, 12 * year + i)
  {
    forall mo | !HasCredit(o, STATUSES, mo) ensures RevolutIn(o, mo) == 0 {
      NoCreditIsZero(o, PURPOSES, STATUSES, mo);
    }
    hide RevolutIn, HasCredit;
    totals := MonthColumn(m => HasCredit(o, STATUSES, 12 * year + m - 1), m => RevolutIn(o, 12 * year + m - 1), 0);
  }

  method SumFinanceCorrectionsByMonth(t: Table<Correction>, year: int) returns (sums: array<int>)
    ensures fresh(sums) && sums.Length == 12
    ensures forall i :: 0 <= i < 12 ==> sums[i] == CorrectionsIn(t, 12 * year + i)
  {
    forall mo | !HasCorrection(t, mo) ensures CorrectionsIn(t, mo) == 0 {
      TotalZero(t.rows, CorrectedIn()(mo, mo + 1), t.next);
    }
    hide CorrectionsIn, HasCorrection;
    sums := MonthColumn(m => HasCorrection(t, 12 * year + m - 1), m => CorrectionsIn(t, 12 * year + m - 1), 0);
  }

  /** What month `mo` of the report holds. */
  ghost predicate Reports(o: Office, mo: int, b: MonthReport) {
    && b.count == Count(o, KINDS, mo, mo + 1)
    && b.countTosti == Count(o, {Tosti}, mo, mo + 1) && b.countAvondeten == Count(o, {Avondeten}, mo, mo + 1)
    && b.cardTosti == Sales(o, {Tosti}, mo, mo + 1) && b.cardAvondeten == Sales(o, {Avondeten}, mo, mo + 1)
    && b.bankTosti == Received(o, {LunchPurpose}, {OpenRevenue}, mo, mo + 1)
    && b.bankAvondeten == Received(o, {AvondetenPurpose}, {OpenRevenue}, mo, mo + 1)
    && b.tosti == b.cardTosti + b.bankTosti && b.avondeten == b.cardAvondeten + b.bankAvondeten
    && b.revenue == b.tosti + b.avondeten
    && b.revenue == Sales(o, KINDS, mo, mo + 1) + Received(o, PURPOSES, {OpenRevenue}, mo, mo + 1)
    && b.count == b.countTosti + b.countAvondeten
  }

  method AdminSalesByMonth(o: Office, year: int) returns (buckets: array<MonthReport>)
    ensures fresh(buckets) && buckets.Length == 12
    ensures forall i :: 0 <= i < 12 ==> Reports(o, 12 * year + i, buckets[i])
  {
    var cards := AdminCardRequestSalesByMonth(o, year);
    var credits := AdminBankCreditRevenueByMonth(o, year);
    buckets := AddColumns(cards, credits);
    forall i | 0 <= i < 12 ensures Reports(o, 12 * year + i, buckets[i]) {
      ReportAddsUp(o, 12 * year + i);
      assert cards[i] == CardSalesIn(o, 12 * year + i) && credits[i] == OpenCreditsIn(o, 12 * year + i);
    }
  }

  function FromSales(c: CardSales): MonthReport {
    MonthReport(c.count, c.revenue, c.countTosti, c.countAvondeten, c.tosti, c.avondeten, 0, 0, 0, 0)
  }

  function SplitCards(c: CardSales): MonthReport { FromSales(c).(cardTosti := c.tosti, cardAvondeten := c.avondeten) }

  method AddColumns(cards: array<CardSales>, credits: array<Pair>) returns (buckets: array<MonthReport>)
    requires cards.Length == 12 && credits.Length == 12
    ensures fresh(buckets) && buckets.Length == 12
    ensures forall i :: 0 <= i < 12 ==> buckets[i] == WithCredits(SplitCards(cards[i]), credits[i])
  {
    buckets := new MonthReport[12](i requires 0 <= i < 12 reads cards => FromSales(cards[i]));
    for i := 0 to 12
      invariant forall k :: 0 <= k < i ==> buckets[k] == SplitCards(cards[k])
      invariant forall k :: i <= k < 12 ==> buckets[k] == FromSales(cards[k])
    {
      buckets[i] := buckets[i].(cardTosti := buckets[i].tosti, cardAvondeten := buckets[i].avondeten);
    }
    ghost var split := buckets[..];
    for i := 0 to 12
      invariant forall k :: 0 <= k < i ==> buckets[k] == WithCredits(split[k], credits[k])
      invariant forall k :: i <= k < 12 ==> buckets[k] == split[k]
    {
      var c := credits[i];
      buckets[i] := WithCredits(buckets[i], c);
    }
  }

  function WithCredits(b: MonthReport, c: Pair): MonthReport {
    b.(bankTosti := c.lunchkraam, bankAvondeten := c.avondeten, revenue := b.revenue + c.lunchkraam + c.avondeten,
       tosti := b.tosti + c.lunchkraam, avondeten := b.avondeten + c.avondeten)
  }

  /** The two kinds of sales and the two purposes of credits make up the whole. */
  lemma ReportAddsUp(o: Office, mo: int)
    ensures Sales(o, KINDS, mo, mo + 1) == Sales(o, {Tosti}, mo, mo + 1) + Sales(o, {Avondeten}, mo, mo + 1)
    ensures Count(o, KINDS, mo, mo + 1) == Count(o, {Tosti}, mo, mo + 1) + Count(o, {Avondeten}, mo, mo + 1)
    ensures Received(o, PURPOSES, {OpenRevenue}, mo, mo + 1)
         == Received(o, {LunchPurpose}, {OpenRevenue}, mo, mo + 1)
           + Received(o, {AvondetenPurpose}, {OpenRevenue}, mo, mo + 1)
  {
    var t := o.db.requests;
    TotalAdds(t.rows, SoldIn({Tosti})(mo, mo + 1), SoldIn({Avondeten})(mo, mo + 1), SoldIn(KINDS)(mo, mo + 1), t.next);
    TotalAdds(t.rows, CountIn({Tosti})(mo, mo + 1), CountIn({Avondeten})(mo, mo + 1), CountIn(KINDS)(mo, mo + 1),
        t.next);
    TotalAdds(o.credits.rows, ReceivedIn({LunchPurpose}, {OpenRevenue})(mo, mo + 1),
        ReceivedIn({AvondetenPurpose}, {OpenRevenue})(mo, mo + 1),
              ReceivedIn(PURPOSES, {OpenRevenue})(mo, mo + 1), o.credits.next);
  }

  // ----- Finance control -----

  datatype Verdict = NoActivity | RevolutHigher | AppHigher | InSync

  const EPSILON := 0.01

  function Classify(revolut: real, app: real, delta: real): Verdict {
    if revolut == 0.0 && app == 0.0 then NoActivity
    else if delta > EPSILON then RevolutHigher
    else if delta < -EPSILON then AppHigher
    else InSync
  }

  datatype ControlRow = ControlRow(month: int, revolut: real, app: real, corrections: real, appIncl: real,
      delta: real, status: Verdict,
                                   deltaIncl: real, statusIncl: Verdict)

  /** Whole cents: more than one cent apart is a difference, up to one cent is in sync. */
  ghost predicate Judges(status: Verdict, revolut: int, app: int) {
    && (status == NoActivity <==> revolut == 0 && app == 0)
    && (status == RevolutHigher <==> revolut - app > 1)
    && (status == AppHigher <==> app - revolut > 1)
  }

  lemma ClassifyJudges(revolut: int, app: int)
    ensures Judges(Classify(Eur(revolut), Eur(app), Eur(revolut - app)), revolut, app)
  {
    assert Eur(revolut - app) > EPSILON <==> revolut - app > 1;
    assert Eur(revolut - app) < -EPSILON <==> revolut - app < -1;
    assert Eur(revolut) == 0.0 <==> revolut == 0;
    assert Eur(app) == 0.0 <==> app == 0;
  }

  /** Received on the statements: open + matched + waived. */
  lemma ReceivedSplits(o: Office, lo: int, hi: int)
    ensures Received(o, PURPOSES, STATUSES, lo, hi)
         == Received(o, PURPOSES, {OpenRevenue}, lo, hi) + Received(o, PURPOSES, {MatchedSale, Waived}, lo, hi)
  {
    TotalAdds(o.credits.rows, ReceivedIn(PURPOSES, {OpenRevenue})(lo, hi),
        ReceivedIn(PURPOSES, {MatchedSale, Waived})(lo, hi),
              ReceivedIn(PURPOSES, STATUSES)(lo, hi), o.credits.next);
  }

  /** Matched and waived credits received in the month, less the sales fulfilled in it: open credits cancel out. */
  function Difference(o: Office, mo: int): int {
    Received(o, PURPOSES, {MatchedSale, Waived}, mo, mo + 1) - Sales(o, KINDS, mo, mo + 1)
  }


  /** Revolut less app: open credits are on both sides. */
  lemma OpenCreditsCancel(o: Office, mo: int)
    ensures RevolutIn(o, mo) - AppIn(o, mo) == Difference(o, mo)
  {
    ReceivedSplits(o, mo, mo + 1);
  }

  /** A row of the control over three amounts in cents. */
  ghost predicate Says(row: ControlRow, revolut: int, app: int, corrections: int) {
    && row.revolut == Eur(revolut) && row.app == Eur(app) && row.corrections == Eur(corrections)
    && row.appIncl == Eur(app + corrections)
    && row.delta == Eur(revolut - app) && row.deltaIncl == Eur(revolut - app - corrections)
    && Judges(row.status, revolut, app) && Judges(row.statusIncl, revolut, app + corrections)
  }

  /** What one month of the finance control says. */
  ghost predicate Controls(o: Office, t: Table<Correction>, mo: int, row: ControlRow) {
    && Says(row, RevolutIn(o, mo), AppIn(o, mo), CorrectionsIn(t, mo))
    && row.delta == Eur(Difference(o, mo))
    && row.deltaIncl == Eur(Difference(o, mo) - CorrectionsIn(t, mo))
  }

  /** The body of the month loop. */
  function MonthControl(month: int, revenue: int, revolut: int, corrections: int): (row: ControlRow)
    ensures row.month == month
  {
    var app := RoundEUR(Eur(revenue));
    var rev := RoundEUR(Eur(revolut));
    var corr := RoundEUR(Eur(corrections));
    var appIncl := RoundEUR(app + corr);
    var delta := RoundEUR(rev - app);
    var deltaIncl := RoundEUR(rev - appIncl);
    ControlRow(month, rev, app, corr, appIncl, delta, Classify(rev, app, delta), deltaIncl,
        Classify(rev, appIncl, deltaIncl))
  }

  method FinanceControlMonths(o: Office, t: Table<Correction>, year: int) returns (months: seq<ControlRow>)
    ensures |months| == 12
    ensures forall i :: 0 <= i < 12 ==> months[i].month == i + 1
    ensures forall i :: 0 <= i < 12 ==> Controls(o, t, 12 * year + i, months[i])
  {
    var buckets := AdminSalesByMonth(o, year);
    var revTotals := AdminRevolutImportedTotalsByMonth(o, year);
    var corrTotals := SumFinanceCorrectionsByMonth(t, year);
    months := [];
    for i := 0 to 12
      invariant |months| == i
      invariant forall k :: 0 <= k < i ==>
        months[k].month == k + 1 && months[k] == MonthControl(k + 1, buckets[k].revenue, revTotals[k], corrTotals[k])
    {
      months := months + [MonthControl(i + 1, buckets[i].revenue, revTotals[i], corrTotals[i])];
    }
    RowsControl(o, t, year, buckets[..], revTotals[..], corrTotals[..], months);
  }

  lemma RowsControl(o: Office, t: Table<Correction>, year: int, b: seq<MonthReport>, revolut: seq<int>,
      corrections: seq<int>, months: seq<ControlRow>)
    requires |b| == |revolut| == |corrections| == |months| == 12
    requires forall i :: 0 <= i < 12 ==> Reports(o, 12 * year + i, b[i])
    requires forall i :: 0 <= i < 12 ==>
      revolut[i] == RevolutIn(o, 12 * year + i) && corrections[i] == CorrectionsIn(t, 12 * year + i)
    requires forall i :: 0 <= i < 12 ==> months[i] == MonthControl(i + 1, b[i].revenue, revolut[i], corrections[i])
    ensures forall i :: 0 <= i < 12 ==> Controls(o, t, 12 * year + i, months[i])
  {
    hide Reports, Controls, MonthControl, AppIn, RevolutIn, CorrectionsIn;
    forall i | 0 <= i < 12 ensures Controls(o, t, 12 * year + i, months[i]) {
      RowControls(o, t, 12 * year + i, b[i], revolut[i], corrections[i]);
    }
  }

  lemma RowControls(o: Office, t: Table<Correction>, mo: int, b: MonthReport, revolut: int, corrections: int)
    requires Reports(o, mo, b) && revolut == RevolutIn(o, mo) && corrections == CorrectionsIn(t, mo)
    ensures forall month :: Controls(o, t, mo, MonthControl(month, b.revenue, revolut, corrections))
  {
    assert b.revenue == AppIn(o, mo);
    OpenCreditsCancel(o, mo);
    hide AppIn, RevolutIn, CorrectionsIn, Difference, Reports, MonthControl, Says;
    forall month ensures Controls(o, t, mo, MonthControl(month, b.revenue, revolut, corrections)) {
      MonthSays(month, b.revenue, revolut, corrections);
    }
  }

  lemma MonthSays(month: int, revenue: int, revolut: int, corrections: int)
    ensures Says(MonthControl(month, revenue, revolut, corrections), revolut, revenue, corrections)
    ensures MonthControl(month, revenue, revolut, corrections).delta == Eur(revolut - revenue)
    ensures MonthControl(month, revenue, revolut, corrections).deltaIncl == Eur(revolut - revenue - corrections)
  {
    hide Eur, RoundEUR, Classify, Judges;
    RoundCents(revenue);
    RoundCents(revolut);
    RoundCents(corrections);
    RoundSum(revenue, corrections);
    RoundSum(revolut, revenue);
    RoundSum(revolut, revenue + corrections);
    ClassifyJudges(revolut, revenue);
    ClassifyJudges(revolut, revenue + corrections);
  }

  // ----- Twelve months are the year -----

  function SumOver(f: int -> int, lo: int, k: nat): int {
    if k == 0 then 0 else SumOver(f, lo, k - 1) + f(lo + k - 1)
  }

  /** A column whose windows can be cut at a month. */
  ghost predicate Cuts<T>(table: Table<T>, w: (int, int) -> (nat, T) -> int, lo: int, mid: int) {
    forall id: nat :: id < table.next ==>
      Share(table.rows, w(lo, mid + 1), id)
        == Share(table.rows, w(lo, mid), id) + Share(table.rows, w(mid, mid + 1), id)
  }

  lemma {:induction false} MonthsAddUp<T>(table: Table<T>, w: (int, int) -> (nat, T) -> int, lo: int, k: nat)
    requires forall id: nat :: id < table.next ==> Share(table.rows, w(lo, lo), id) == 0
    requires forall mid :: lo <= mid ==> Cuts(table, w, lo, mid)
    ensures SumOver(mo => SumIn(table, w, mo, mo + 1), lo, k) == SumIn(table, w, lo, lo + k)
  {
    if k == 0 {
      TotalZero(table.rows, w(lo, lo), table.next);
    } else {
      MonthsAddUp(table, w, lo, k - 1);
      var mid := lo + k - 1;
      assert Cuts(table, w, lo, mid);
      TotalAdds(table.rows, w(lo, mid), w(mid, mid + 1), w(lo, mid + 1), table.next);
    }
  }

  /** The twelve months of a year partition its sales, its credits and its corrections. */
  lemma YearPartitions(o: Office, t: Table<Correction>, year: int, purposes: set<Purpose>, statuses: set<CreditStatus>,
      kinds: set<Kind>)
    ensures SumOver(mo => Sales(o, kinds, mo, mo + 1), 12 * year, 12) == Sales(o, kinds, 12 * year, 12 * year + 12)
    ensures SumOver(mo => Received(o, purposes, statuses, mo, mo + 1), 12 * year, 12)
      == Received(o, purposes, statuses, 12 * year, 12 * year + 12)
    ensures SumOver(mo => CorrectionsIn(t, mo), 12 * year, 12) == SumIn(t, CorrectedIn(), 12 * year, 12 * year + 12)
  {
    var lo := 12 * year;
    MonthsAddUp(o.db.requests, SoldIn(kinds), lo, 12);
    MonthsAddUp(o.credits, ReceivedIn(purposes, statuses), lo, 12);
    MonthsAddUp(t, CorrectedIn(), lo, 12);
    SumCongruent(mo => SumIn(o.db.requests, SoldIn(kinds), mo, mo + 1), mo => Sales(o, kinds, mo, mo + 1), lo, 12);
    SumCongruent(mo => SumIn(o.credits, ReceivedIn(purposes, statuses), mo, mo + 1),
        mo => Received(o, purposes, statuses, mo, mo + 1), lo, 12);
    SumCongruent(mo => SumIn(t, CorrectedIn(), mo, mo + 1), mo => CorrectionsIn(t, mo), lo, 12);
  }

  lemma {:induction false} SumCongruent(f: int -> int, g: int -> int, lo: int, k: nat)
    requires forall i :: lo <= i < lo + k ==> f(i) == g(i)
    ensures SumOver(f, lo, k) == SumOver(g, lo, k)
  {
    if k > 0 { SumCongruent(f, g, lo, k - 1); }
  }

  /** Over a year the control's differences add up to matched and waived credits less sales. */
  lemma YearDifference(o: Office, year: int)
    ensures SumOver(mo => Difference(o, mo), 12 * year, 12)
         == Received(o, PURPOSES, {MatchedSale, Waived}, 12 * year, 12 * year + 12)
           - Sales(o, KINDS, 12 * year, 12 * year + 12)
  {
    var lo := 12 * year;
    YearPartitions(o, Table(map[], 1), year, PURPOSES, {MatchedSale, Waived}, KINDS);
    SumMinus(mo => Received(o, PURPOSES, {MatchedSale, Waived}, mo, mo + 1), mo => Sales(o, KINDS, mo, mo + 1),
        mo => Difference(o, mo), lo, 12);
  }

  lemma {:induction false} SumMinus(f: int -> int, g: int -> int, h: int -> int, lo: int, k: nat)
    requires forall i :: lo <= i < lo + k ==> h(i) == f(i) - g(i)
    ensures SumOver(h, lo, k) == SumOver(f, lo, k) - SumOver(g, lo, k)
  {
    if k > 0 { SumMinus(f, g, h, lo, k - 1); }
  }
}
