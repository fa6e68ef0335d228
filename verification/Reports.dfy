/** What a sale, a payment, a link and a waiver do to the monthly reports. */
module Reports {
  import opened Prelude
  import opened Ledger
  import opened Invariant
  import opened Runs
  import opened Calendar
  import opened Text
  import opened BankCredits
  import opened Reconciliation
  import opened FinanceControl
  import Effects

  /** The amount counts for month `mo`. */
  function When(month: int, mo: int, amount: int): int { if month == mo then amount else 0 }

  // ----- Sales -----

  /** Request `r` has become a sale of this kind, at this price, in this month. */
  ghost predicate NewSale(db: Db, after: Db, r: nat, kind: Kind, price: int, month: int) {
    && r < after.requests.next && db.requests.next <= after.requests.next && r in after.requests.rows
    && after.requests.rows == db.requests.rows[r := after.requests.rows[r]]
    && (r in db.requests.rows ==> !db.requests.rows[r].status.Fulfilled?)
    && after.requests.rows[r].status.Fulfilled? && after.requests.rows[r].status.month == month
    && after.requests.rows[r].kind == kind && after.requests.rows[r].price == Some(price)
  }

  lemma SaleIsNew(db: Db, op: Op)
    requires Shape(db) && Perform(db, op).Some? && (op.SellOp? || op.FulfilOp?)
    ensures op.SellOp? ==> NewSale(db, Step(db, op), db.requests.next, op.kind, op.price, op.month)
    ensures op.FulfilOp? ==>
      && op.request in db.requests.rows
      && NewSale(db, Step(db, op), op.request, db.requests.rows[op.request].kind, op.price, op.month)
  {
    match op
    case SellOp(buyer, seller, kind, price, month) => Effects.SaleEffect(db, buyer, seller, kind, price, month);
    case FulfilOp(r, admin, price, month) => Effects.FulfilEffect(db, r, admin, price, month);
  }

  lemma ColumnAfterSale(o: Office, after: Office, r: nat, kind: Kind, price: int, month: int, kinds: set<Kind>, mo: int)
    requires o.db.requests.Valid() && NewSale(o.db, after.db, r, kind, price, month)
    ensures Sales(after, kinds, mo, mo + 1)
      == Sales(o, kinds, mo, mo + 1) + if kind in kinds then When(month, mo, price) else 0
    ensures Count(after, kinds, mo, mo + 1)
      == Count(o, kinds, mo, mo + 1) + if kind in kinds then When(month, mo, 1) else 0
  {
    var was, now, n := o.db.requests, after.db.requests, after.db.requests.next;
    TotalGrow(was.rows, SoldIn(kinds)(mo, mo + 1), was.next, n);
    TotalGrow(was.rows, CountIn(kinds)(mo, mo + 1), was.next, n);
    TotalChange(was.rows, SoldIn(kinds)(mo, mo + 1), now.rows, SoldIn(kinds)(mo, mo + 1), n, r);
    TotalChange(was.rows, CountIn(kinds)(mo, mo + 1), now.rows, CountIn(kinds)(mo, mo + 1), n, r);
    assert PriceOf(now.rows[r]) == price;
  }

  /** A sale adds one to the count and its price to the revenue of its kind in its month, in the reports as in the
      control, and nothing anywhere else; the statements do not see it. */
  lemma ReportAfterSale(o: Office, op: Op, mo: int)
    requires OfficeOk(o) && Perform(o.db, op).Some? && (op.SellOp? || op.FulfilOp?)
    ensures op.FulfilOp? ==> op.request in o.db.requests.rows
    ensures var after := OfficeStep(o, Counter(op));
      var kind := if op.SellOp? then op.kind else o.db.requests.rows[op.request].kind;
      var one, price := When(op.month, mo, 1), When(op.month, mo, op.price);
      var was, now := CardSalesIn(o, mo), CardSalesIn(after, mo);
      && now.count == was.count + one && now.revenue == was.revenue + price
      && now.countTosti == was.countTosti + (if kind == Tosti then one else 0)
      && now.countAvondeten == was.countAvondeten + (if kind == Avondeten then one else 0)
      && now.tosti == was.tosti + (if kind == Tosti then price else 0)
      && now.avondeten == was.avondeten + (if kind == Avondeten then price else 0)
      && AppIn(after, mo) == AppIn(o, mo) + price
      && RevolutIn(after, mo) == RevolutIn(o, mo) && OpenCreditsIn(after, mo) == OpenCreditsIn(o, mo)
  {
    hide Perform, Sales, Count, Received, CreditsOk, SalesKept, NewSale, CardsOk, RequestsOk;
    var after := OfficeStep(o, Counter(op));
    SaleIsNew(o.db, op);
    StepKeepsSales(o.db, op);
    SalesKeepLinks(o.credits, o.db.requests.rows, after.db.requests.rows);
    var r := if op.SellOp? then o.db.requests.next else op.request;
    var kind := if op.SellOp? then op.kind else o.db.requests.rows[op.request].kind;
    ColumnAfterSale(o, after, r, kind, op.price, op.month, KINDS, mo);
    ColumnAfterSale(o, after, r, kind, op.price, op.month, {Tosti}, mo);
    ColumnAfterSale(o, after, r, kind, op.price, op.month, {Avondeten}, mo);
    CreditColumns(o, after, mo);
    EitherKind(kind);
  }

  lemma EitherKind(kind: Kind)
    ensures kind in KINDS
  {}

  lemma CreditColumns(o: Office, after: Office, mo: int)
    requires after.credits == o.credits
    ensures RevolutIn(after, mo) == RevolutIn(o, mo) && OpenCreditsIn(after, mo) == OpenCreditsIn(o, mo)
    ensures Received(after, PURPOSES, {OpenRevenue}, mo, mo + 1) == Received(o, PURPOSES, {OpenRevenue}, mo, mo + 1)
  {}

  // ----- Credits -----

  /** What a credit row adds to a column. */
  function Adds(row: Credit, purposes: set<Purpose>, statuses: set<CreditStatus>, mo: int): int {
    if row.purpose in purposes && row.status in statuses then When(MonthOf(row.received), mo, row.amount) else 0
  }

  /** A column moves by what the changed row adds to it now, less what it added before. */
  lemma ColumnAfterCredit(o: Office, after: Office, b: nat, purposes: set<Purpose>, statuses: set<CreditStatus>,
      mo: int)
    requires o.credits.Valid() && b in after.credits.rows
      && after.credits.rows == o.credits.rows[b := after.credits.rows[b]]
    requires o.credits.next <= after.credits.next && b < after.credits.next
    ensures Received(after, purposes, statuses, mo, mo + 1)
      == Received(o, purposes, statuses, mo, mo + 1) + Adds(after.credits.rows[b], purposes, statuses, mo)
        - (if b in o.credits.rows then Adds(o.credits.rows[b], purposes, statuses, mo) else 0)
  {
    var w := ReceivedIn(purposes, statuses)(mo, mo + 1);
    TotalGrow(o.credits.rows, w, o.credits.next, after.credits.next);
    TotalChange(o.credits.rows, w, after.credits.rows, w, after.credits.next, b);
  }

  /** An open credit of the month is in the bank column of its purpose and in the reported revenue. */
  ghost predicate Moves(o: Office, after: Office, row: Credit, amount: int, mo: int) {
    var cents := When(MonthOf(row.received), mo, amount);
    var was, now := OpenCreditsIn(o, mo), OpenCreditsIn(after, mo);
    && now.lunchkraam == was.lunchkraam + (if row.purpose == LunchPurpose then cents else 0)
    && now.avondeten == was.avondeten + (if row.purpose == AvondetenPurpose then cents else 0)
    && AppIn(after, mo) == AppIn(o, mo) + cents
    && CardSalesIn(after, mo) == CardSalesIn(o, mo)
  }

  /** Linking or waiving an open credit takes it out of the revenue reported for its month, which so counts a card that
      was sold and paid for only once; opening it again puts it back. The statements' total never moves. */
  lemma ReportAfterStatus(o: Office, op: OfficeOp, mo: int)
    requires OfficeOk(o) && (op.LinkOp? || op.WaiveOp? || op.UnlinkOp?) && PerformCredit(o, op).Ok?
    ensures op.credit in o.credits.rows
    ensures var row := o.credits.rows[op.credit];
      && RevolutIn(OfficeStep(o, op), mo) == RevolutIn(o, mo)
      && Moves(o, OfficeStep(o, op), row, if op.UnlinkOp? then row.amount else -row.amount, mo)
  {
    hide Inv, Received, Sales, Count;
    var b, after := op.credit, OfficeStep(o, op);
    ColumnAfterCredit(o, after, b, PURPOSES, STATUSES, mo);
    ColumnAfterCredit(o, after, b, PURPOSES, {OpenRevenue}, mo);
    ColumnAfterCredit(o, after, b, {LunchPurpose}, {OpenRevenue}, mo);
    ColumnAfterCredit(o, after, b, {AvondetenPurpose}, {OpenRevenue}, mo);
    SalesReadDb(o, after, mo);
  }

  lemma SalesReadDb(o: Office, after: Office, mo: int)
    requires after.db == o.db
    ensures CardSalesIn(after, mo) == CardSalesIn(o, mo)
    ensures Sales(after, KINDS, mo, mo + 1) == Sales(o, KINDS, mo, mo + 1)
  {}

  /** A payment imported under a new identifier is in the statements' total, in the reported revenue and in the bank
      column of its purpose, each for its month. */
  lemma ReportAfterPayment(o: Office, op: OfficeOp, mo: int)
    requires OfficeOk(o) && op.ImportOp? && PerformCredit(o, op).Ok?
    requires forall b :: b in o.credits.rows ==> o.credits.rows[b].external != Trim(op.external)
    ensures var after := OfficeStep(o, op); var b := o.credits.next;
      && b in after.credits.rows && after.credits.rows[b].amount == op.amount
      && after.credits.rows[b].received == op.received
      && RevolutIn(after, mo) == RevolutIn(o, mo) + When(MonthOf(op.received), mo, op.amount)
      && Moves(o, after, after.credits.rows[b], op.amount, mo)
  {
    hide Inv, Received, Sales, Count, Trim;
    var b, after := o.credits.next, OfficeStep(o, op);
    ColumnAfterCredit(o, after, b, PURPOSES, STATUSES, mo);
    ColumnAfterCredit(o, after, b, PURPOSES, {OpenRevenue}, mo);
    ColumnAfterCredit(o, after, b, {LunchPurpose}, {OpenRevenue}, mo);
    ColumnAfterCredit(o, after, b, {AvondetenPurpose}, {OpenRevenue}, mo);
    SalesReadDb(o, after, mo);
  }
}
