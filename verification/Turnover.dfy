/** Turnover, delivered tostis and outstanding knipjes over every run: each is the sum of what the operations moved. */
module Turnover {
  import opened Prelude
  import opened Journal
  import opened Ledger
  import opened CardBook
  import opened Invariant
  import opened Preservation
  import opened Lifecycle
  import opened Runs
  import opened Reservations
  import opened Effects

  // ----- What one operation moves -----

  /** What an operation takes in for `month`: the price of a sale it commits in that month. */
  function Takings(db: Db, op: Op, month: int): int {
    if Perform(db, op).None? then 0
    else match op
      case FulfilOp(_, _, price, m) => if m == month then price else 0
      case SellOp(_, _, _, price, m) => if m == month then price else 0
      case PlaceSaleOp(_, _, _, price, m) => if m == month then price else 0
      case _ => 0
  }

  /** The tostis that an operation hands out. */
  function HandedOut(db: Db, op: Op): int {
    if Perform(db, op).None? then 0
    else match op
      case DeliverOp(o, _) => if o in db.orders.rows then db.orders.rows[o].quantity else 0
      case SettleOp(o, _, _) => if o in db.orders.rows then db.orders.rows[o].quantity else 0
      case _ => 0
  }

  // ----- Turnover -----

  lemma RowSold(db: Db, after: Db, r: nat, row: Request, month: int)
    requires db.requests.Valid() && r <= db.requests.next
      && (r in db.requests.rows ==> db.requests.rows[r].status.Open?)
    requires after.requests == Table(db.requests.rows[r := row],
      if r == db.requests.next then r + 1 else db.requests.next)
    requires r == db.requests.next || r in db.requests.rows
    ensures Sales(after, month) == Sales(db, month) + SalesIn(month)(r, row)
  {
    var n := after.requests.next;
    TotalGrow(db.requests.rows, SalesIn(month), db.requests.next, n);
    TotalChange(db.requests.rows, SalesIn(month), after.requests.rows, SalesIn(month), n, r);
  }

  /** Fulfilling a request at any price raises the turnover of that month by that price, and of no other month. */
  lemma FulfilTurnover(db: Db, r: nat, admin: nat, price: int, m: int, month: int)
    requires Shape(db) && Fulfil(db, r, admin, price, m).Ok?
    ensures Sales(Fulfil(db, r, admin, price, m).value, month) == Sales(db, month) + if m == month then price else 0
  {
    FulfilEffect(db, r, admin, price, m);
    hide Fulfil;
    var after := Fulfil(db, r, admin, price, m).value;
    RowSold(db, after, r, after.requests.rows[r], month);
  }

  /** So does a sale over the counter. */
  lemma SaleTurnover(db: Db, after: Db, buyer: nat, seller: nat, kind: Kind, price: int, m: int, month: int)
    requires Shape(db) && SoldOnPaper(db, after, buyer, seller, kind, price, m)
    ensures Sales(after, month) == Sales(db, month) + if m == month then price else 0
  {
    RowSold(db, after, db.requests.next, after.requests.rows[db.requests.next], month);
  }

  lemma RequestTurnover(db: Db, user: nat, kind: Kind, month: int)
    requires Shape(db) && PlaceRequest(db, user, kind).Ok?
    ensures Sales(PlaceRequest(db, user, kind).value, month) == Sales(db, month)
  {
    var after := PlaceRequest(db, user, kind).value;
    RowSold(db, after, db.requests.next, after.requests.rows[db.requests.next], month);
  }

  /** The operation writes the row of a new or an open request. */
  predicate WritesRequest(op: Op) {
    op.RequestOp? || op.SellOp? || op.FulfilOp? || op.PlaceRequestOp? || op.PlaceSaleOp?
  }

  predicate Withdraws(op: Op) { op.RejectOp? || op.CancelRequestOp? || op.CancelAllOp? }

  lemma WritingTurnover(db: Db, op: Op, month: int)
    requires Shape(db) && Perform(db, op).Some? && WritesRequest(op)
    ensures Sales(Step(db, op), month) == Sales(db, month) + Takings(db, op, month)
  {
    hide Sales, Fulfil, PlaceRequest, PlaceSale, BuyerError, Shape;
    match op
    case FulfilOp(r, admin, price, m) => FulfilTurnover(db, r, admin, price, m, month);
    case RequestOp(user, kind) => RequestTurnover(db, user, kind, month);
    case PlaceRequestOp(user, kind) => RequestTurnover(db, user, kind, month);
    case SellOp(buyer, seller, kind, price, m) =>
      SaleEffect(db, buyer, seller, kind, price, m);
      SaleTurnover(db, PlaceSale(db, buyer, seller, kind, price, m).value, buyer, seller, kind, price, m, month);
    case PlaceSaleOp(buyer, seller, kind, price, m) =>
      SaleEffect(db, buyer, seller, kind, price, m);
      SaleTurnover(db, PlaceSale(db, buyer, seller, kind, price, m).value, buyer, seller, kind, price, m, month);
  }

  /** What withdrawals have in common: the open requests they cancel. */
  lemma WithdrawnSet(db: Db, op: Op) returns (rs: set<nat>)
    requires Perform(db, op).Some? && Withdraws(op)
    ensures Step(db, op) == Withdraw(db, rs)
    ensures forall r :: r in rs ==> r in db.requests.rows && db.requests.rows[r].status.Open?
  {
    hide Withdraw;
    rs := match op
      case RejectOp(r) => {r}
      case CancelRequestOp(r, _) => {r}
      case CancelAllOp(user) => OpenOf(db.requests.rows, user);
  }

  /** An operation changes the turnover of a month by exactly what it takes in for that month. */
  lemma StepTurnover(db: Db, op: Op, month: int)
    requires Inv(db)
    ensures Sales(Step(db, op), month) == Sales(db, month) + Takings(db, op, month)
  {
    assert Shape(db) by { hide CardsOk, RequestsOk; }
    hide Inv, Shape, Sales, Merge, DeleteUser;
    if Perform(db, op).Some? {
      if WritesRequest(op) {
        WritingTurnover(db, op, month);
      } else if Withdraws(op) {
        var rs := WithdrawnSet(db, op);
        WithdrawReports(db, rs, month);
      } else if op.MergeOp? {
        MergeReports(db, op.src, op.dst, op.actor, month);
      } else if op.DeleteOp? {
        DeleteReports(db, op.user, op.actor, month);
      } else {
        OtherRequests(db, op);
        SalesReadRequests(db, Step(db, op), month);
      }
    }
  }

  lemma SalesReadRequests(db: Db, after: Db, month: int)
    requires after.requests == db.requests
    ensures Sales(after, month) == Sales(db, month)
  {}

  /** The takings of a run for a month. */
  function Earned(db: Db, ops: seq<Op>, month: int): int
    decreases |ops|
  {
    if ops == [] then 0 else Takings(db, ops[0], month) + Earned(Step(db, ops[0]), ops[1..], month)
  }

  /** Over every run the turnover of each month is what its sales brought in, no more and no less. */
  lemma {:induction false} RunTurnover(db: Db, ops: seq<Op>, month: int)
    requires Inv(db)
    ensures Sales(Run(db, ops), month) == Sales(db, month) + Earned(db, ops, month)
    decreases |ops|
  {
    hide Inv, Takings, Step, Sales;
    if ops != [] {
      StepKeeps(db, ops[0]);
      StepTurnover(db, ops[0], month);
      RunTurnover(Step(db, ops[0]), ops[1..], month);
    }
  }

  // ----- Deliveries -----

  lemma SettleHandsOut(db: Db, o: nat, found: Option<nat>, who: nat)
    requires Shape(db) && DeliverOn(db, o, found, who).Ok?
    ensures o in db.orders.rows
    ensures DeliveredTostis(DeliverOn(db, o, found, who).value) == DeliveredTostis(db) + db.orders.rows[o].quantity
  {
    assert db.orders.rows[o].status.Pending?;
    SettleEffect(db, o, found, who);
    hide DeliverOn;
    var after := DeliverOn(db, o, found, who).value;
    TotalChange(db.orders.rows, DeliveredQuantity, after.orders.rows, DeliveredQuantity, db.orders.next, o);
  }

  lemma OrderTableTostis(db: Db, op: Op)
    requires Shape(db) && Perform(db, op).Some? && (op.OrderOp? || op.CancelOrderOp?)
    ensures DeliveredTostis(Step(db, op)) == DeliveredTostis(db)
  {
    var after := Step(db, op);
    TotalGrow(db.orders.rows, DeliveredQuantity, db.orders.next, after.orders.next);
    TotalCongruent(db.orders.rows, DeliveredQuantity, after.orders.rows, DeliveredQuantity, after.orders.next);
  }

  lemma SameOrders(db: Db, op: Op)
    requires Perform(db, op).Some?
    requires !Withdraws(op) && !op.MergeOp? && !op.DeleteOp? && !op.OrderOp? && !op.CancelOrderOp? && !op.DeliverOp?
      && !op.SettleOp?
    ensures Step(db, op).orders == db.orders
  {
    hide BuyerError, FirstRefusal;
  }

  lemma TostisReadOrders(db: Db, after: Db)
    requires after.orders == db.orders
    ensures DeliveredTostis(after) == DeliveredTostis(db)
  {}

  /** An operation raises the delivered total by exactly the tostis it hands out. */
  lemma StepHandsOut(db: Db, op: Op)
    requires Inv(db)
    ensures DeliveredTostis(Step(db, op)) == DeliveredTostis(db) + HandedOut(db, op)
  {
    assert Shape(db) by { hide CardsOk, RequestsOk; }
    hide Inv, Shape, DeliveredTostis, Merge, DeleteUser, DeliverOn;
    if Perform(db, op).Some? {
      if op.DeliverOp? {
        SettleHandsOut(db, op.order, FindPhysicalTostiCard(db.cards, db.orders.rows[op.order].user), op.actor);
      } else if op.SettleOp? {
        SettleHandsOut(db, op.order, op.found, op.actor);
      } else if op.OrderOp? || op.CancelOrderOp? {
        OrderTableTostis(db, op);
      } else if Withdraws(op) {
        var rs := WithdrawnSet(db, op);
        WithdrawReports(db, rs, 0);
      } else if op.MergeOp? {
        MergeReports(db, op.src, op.dst, op.actor, 0);
      } else if op.DeleteOp? {
        DeleteReports(db, op.user, op.actor, 0);
      } else {
        SameOrders(db, op);
        TostisReadOrders(db, Step(db, op));
      }
    }
  }

  function HandedOutOver(db: Db, ops: seq<Op>): int
    decreases |ops|
  {
    if ops == [] then 0 else HandedOut(db, ops[0]) + HandedOutOver(Step(db, ops[0]), ops[1..])
  }

  /** Over every run the delivered total is what was handed out: merges, deletions, withdrawals and undos change nothing
      about it. */
  lemma {:induction false} RunHandsOut(db: Db, ops: seq<Op>)
    requires Inv(db)
    ensures DeliveredTostis(Run(db, ops)) == DeliveredTostis(db) + HandedOutOver(db, ops)
    decreases |ops|
  {
    hide Inv, HandedOut, Step, DeliveredTostis;
    if ops != [] {
      StepKeeps(db, ops[0]);
      StepHandsOut(db, ops[0]);
      RunHandsOut(Step(db, ops[0]), ops[1..]);
    }
  }
}
