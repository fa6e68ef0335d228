/** The card administration as a state machine: every run of operations, and what holds after each of them. */
module Runs {
  import opened Prelude
  import opened Journal
  import opened Ledger
  import opened CardBook
  import opened CardSteps
  import opened Invariant
  import opened Preservation
  import opened Lifecycle

  datatype Op =
    | RequestOp(user: nat, kind: Kind)
    | SellOp(buyer: nat, seller: nat, kind: Kind, price: int, month: int)
    | FulfilOp(request: nat, admin: nat, price: int, month: int)
    | RejectOp(request: nat)
    | CancelRequestOp(request: nat, user: nat)
    | CancelAllOp(user: nat)
    | OrderOp(user: nat, onCard: Option<nat>, bread: string, filling: string, quantity: int, remark: string)
    | CancelOrderOp(order: nat, actor: nat, staff: bool)
    | DeliverOp(order: nat, actor: nat)
    | PunchOp(card: nat, puncher: Option<Actor>)
    | MealsOp(cards: seq<int>, day: int, actor: nat)
    | UndoOp(card: nat, line: nat, actor: nat)
    | EstimateOp(card: nat, value: int, actor: nat)
    | MergeOp(src: nat, dst: nat, actor: nat)
    | DeleteOp(user: nat, actor: nat)
    | SaveUserOp(account: Option<nat>, row: User)
    // The writes alone, of transactions that read what they check without a lock.
    | PlaceRequestOp(user: nat, kind: Kind)
    | PlaceSaleOp(buyer: nat, seller: nat, kind: Kind, price: int, month: int)
    | SettleOp(order: nat, found: Option<nat>, actor: nat)

  function Committed<E>(r: Result<Db, E>): Option<Db> { if r.Ok? then Some(r.value) else None }

  /** The database that the operation commits, if it commits. */
  function Perform(db: Db, op: Op): Option<Db> {
    match op
    case RequestOp(user, kind) => Committed(RequestCard(db, user, kind))
    case SellOp(buyer, seller, kind, price, month) => Committed(SellPhysical(db, buyer, seller, kind, price, month))
    case FulfilOp(r, admin, price, month) => Committed(Fulfil(db, r, admin, price, month))
    case RejectOp(r) => Committed(Reject(db, r))
    case CancelRequestOp(r, user) => Committed(CancelRequest(db, r, user))
    case CancelAllOp(user) => Committed(CancelAll(db, user))
    case OrderOp(user, card, bread, filling, quantity, remark) =>
      Committed(CreateOrder(db, user, card, bread, filling, quantity, remark))
    case CancelOrderOp(o, actor, staff) => Committed(CancelOrder(db, o, actor, staff))
    case DeliverOp(o, actor) => Committed(Deliver(db, o, actor))
    case PunchOp(c, puncher) => Committed(UseKnipje(db, c, puncher))
    case MealsOp(cards, day, actor) => Committed(RegisterMeals(db, cards, day, actor))
    case UndoOp(c, i, actor) => Committed(UndoLineAt(db, c, i, actor))
    case EstimateOp(c, value, actor) => Committed(SetEstimate(db, c, value, actor))
    case MergeOp(src, dst, actor) => Committed(Merge(db, src, dst, actor))
    case DeleteOp(user, actor) => Committed(DeleteUser(db, user, actor))
    case SaveUserOp(account, row) => Committed(SaveUser(db, account, row))
    case PlaceRequestOp(user, kind) => Committed(PlaceRequest(db, user, kind))
    case PlaceSaleOp(buyer, seller, kind, price, month) => Committed(PlaceSale(db, buyer, seller, kind, price, month))
    case SettleOp(o, found, actor) => Committed(DeliverOn(db, o, found, actor))
  }

  /** A transaction that returns an error leaves the database unchanged. */
  function Step(db: Db, op: Op): Db {
    var r := Perform(db, op);
    if r.Some? then r.value else db
  }

  function Run(db: Db, ops: seq<Op>): Db
    decreases |ops|
  {
    if ops == [] then db else Run(Step(db, ops[0]), ops[1..])
  }

  /** A new installation. */
  const EMPTY := Db(Table(map[], 1), Table(map[], 1), Table(map[], 1), Table(map[], 1), map[], map[], map[])

  /** No cards yet; at most legacy requests from before cards were created on request. The empty database is one of
      these. */
  ghost predicate Initial(db: Db) {
    && db.users.Valid() && db.cards.Valid() && db.requests.Valid() && db.orders.Valid()
    && db.cards.rows == map[] && db.log == map[] && db.orders.rows == map[] && db.meals == map[]
    && (forall r :: r in db.requests.rows ==> LegacyRequest(db.requests.rows[r]))
    && OneOpenPerKind(db.requests.rows)
  }

  ghost predicate LegacyRequest(row: Request) {
    row.status.Open? && row.card.None? && row.trustUsed <= FULL_CARD && row.price.None?
  }

  lemma StepKeeps(db: Db, op: Op)
    requires Inv(db)
    ensures Inv(Step(db, op))
  {
    hide Inv;
    if Perform(db, op).Some? {
      match op
      case RequestOp(user, kind) => RequestCardKeeps(db, user, kind);
      case SellOp(buyer, seller, kind, price, month) => SellPhysicalKeeps(db, buyer, seller, kind, price, month);
      case FulfilOp(r, admin, price, month) => FulfilKeepsDb(db, r, admin, price, month);
      case RejectOp(r) => WithdrawKeeps(db, {r});
      case CancelRequestOp(r, user) => WithdrawKeeps(db, {r});
      case CancelAllOp(user) => WithdrawKeeps(db, OpenOf(db.requests.rows, user));
      case OrderOp(user, card, bread, filling, quantity, remark)
        => CreateOrderKeeps(db, user, card, bread, filling, quantity, remark);
      case CancelOrderOp(o, actor, staff) => CancelOrderKeepsDb(db, o, actor, staff);
      case DeliverOp(o, actor) => DeliverKeepsDb(db, o, actor);
      case PunchOp(c, puncher) => UseKnipjeKeeps(db, c, puncher);
      case MealsOp(cards, day, actor) => RegisterMealsKeeps(db, cards, day, actor);
      case UndoOp(c, i, actor) => UndoKeepsDb(db, c, i, actor);
      case EstimateOp(c, value, actor) => SetEstimateKeeps(db, c, value, actor);
      case MergeOp(src, dst, actor) => MergeKeeps(db, src, dst, actor);
      case DeleteOp(user, actor) => DeleteKeeps(db, user, actor);
      case SaveUserOp(account, row) => SaveUserKeeps(db, account, row);
      case PlaceRequestOp(user, kind) => PlaceRequestKeeps(db, user, kind);
      case PlaceSaleOp(buyer, seller, kind, price, month) => PlaceSaleKeeps(db, buyer, seller, kind, price, month);
      case SettleOp(o, found, actor) => DeliverOnKeeps(db, o, found, actor);
    }
  }

  lemma {:induction false} RunKeeps(db: Db, ops: seq<Op>)
    requires Inv(db)
    ensures Inv(Run(db, ops))
    decreases |ops|
  {
    hide Inv;
    if ops != [] {
      StepKeeps(db, ops[0]);
      RunKeeps(Step(db, ops[0]), ops[1..]);
    }
  }

  /** Every reachable database satisfies the invariant. */
  lemma Reachable(start: Db, ops: seq<Op>)
    requires Initial(start)
    ensures Inv(Run(start, ops))
  {
    assert Inv(start) by {
      assert forall r :: r in start.requests.rows ==> LegacyRequest(start.requests.rows[r]);
    }
    hide Inv;
    RunKeeps(start, ops);
  }

  // ----- The ledger -----

  /** In every reachable state every card's balance replays from its journal. */
  lemma LedgerReplay(start: Db, ops: seq<Op>, c: nat)
    requires Initial(start) && c in Run(start, ops).cards.rows
    ensures c in Run(start, ops).log
    ensures var lines, balance := Run(start, ops).log[c], Run(start, ops).cards.rows[c].knipjes;
      0 <= balance <= FULL_CARD && balance == Sum(lines, Delta) && balance
        == Sum(lines, LiveDelta) && Replays(lines) && Reversals(lines)
  {
    hide CardOk;
    Reachable(start, ops);
    assert CardOk(View(Run(start, ops), c));
    BalancedView(View(Run(start, ops), c));
  }

  lemma BalancedView(v: CardView)
    requires CardOk(v)
    ensures Balanced(v.card.knipjes, v.lines)
  {}

  /** Delivered on card `c`, and the knipjes were not given back. */
  ghost function NetDeliveredOn(lines: seq<Line>, c: nat): (nat, Order) -> int {
    (o: nat, row: Order) => if row.card == Some(c) && row.status.Delivered? && !Refunded(lines, o) then
      row.quantity else 0
  }

  /** What an online card was issued with = what is left + delivered and not undone + live punches + registered meals.
      */
  lemma Conservation(start: Db, ops: seq<Op>, c: nat)
    requires Initial(start) && c in Run(start, ops).cards.rows && Run(start, ops).cards.rows[c].source == Online
    ensures c in Run(start, ops).log && |Run(start, ops).log[c]| > 0
    ensures var db := Run(start, ops);
      db.cards.rows[c].knipjes + Total(db.orders.rows, NetDeliveredOn(db.log[c], c), db.orders.next)
        + LivePunches(db.log[c]) + |Days(db.meals, c)| == db.log[c][0].delta <= FULL_CARD
  {
    hide CardOk;
    Reachable(start, ops);
    var db := Run(start, ops);
    var v := View(db, c);
    OnlineConservation(v);
    BalancedView(v);
    TotalCongruent(db.orders.rows, NetDeliveredOn(db.log[c], c), v.orders, NetDelivered(v.lines), v.n);
  }

  /** Undo on an online card never leaves 0..10. */
  lemma UndoNeverOutOfRange(db: Db, c: nat, i: nat, actor: nat)
    requires Inv(db) && c in db.cards.rows && db.cards.rows[c].source == Online
    ensures UndoLineAt(db, c, i, actor) != Err(UndoOutOfRange)
  {
    hide CardOk;
    var v := View(db, c);
    if i < |v.lines| && Undoable(v.lines[i].reason) && v.lines[i].reversedBy.None? {
      UndoFitsOnline(v, i);
    }
  }

  /** Every delivered order that is linked to a card has exactly one delivery line, on that card. */
  lemma DeliveredOnce(start: Db, ops: seq<Op>, o: nat)
    requires Initial(start)
    requires o in Run(start, ops).orders.rows && Run(start, ops).orders.rows[o].status.Delivered?
      && Run(start, ops).orders.rows[o].card.Some?
    ensures var db := Run(start, ops); var c := db.orders.rows[o].card.value;
      c in db.log && exists i :: 0 <= i < |db.log[c]| && OnlyDelivery(db.log[c], i, o)
  {
    hide CardOk;
    Reachable(start, ops);
    var db := Run(start, ops);
    assert OrderLinked(db.cards.rows, db.orders.rows[o]);
    var c := db.orders.rows[o].card.value;
    OneDeliveryLine(View(db, c), o);
  }

  // ----- Unverified means untouched -----

  /** Reject fails with "knipjes used" exactly on legacy requests that never had a card, some of whose trust knipjes are
      used. */
  lemma RejectSucceeds(db: Db, r: nat)
    requires Inv(db)
    ensures Reject(db, r).Ok? <==>
      r in db.requests.rows && db.requests.rows[r].status.Open?
          && (db.requests.rows[r].card.Some? || db.requests.rows[r].trustUsed == 0)
    ensures Reject(db, r) == Err(CannotRejectKnipjesUsed) <==>
      r in db.requests.rows && db.requests.rows[r].status.Open? && db.requests.rows[r].card.None?
          && db.requests.rows[r].trustUsed > 0
  {
    hide CardOk;
    if r in db.requests.rows && db.requests.rows[r].status.Open? { OpenCardIsFull(db, r); }
  }

  lemma OpenCardIsFull(db: Db, r: nat)
    requires Inv(db) && r in db.requests.rows && db.requests.rows[r].status.Open?
    ensures db.requests.rows[r].card.Some? ==>
      db.requests.rows[r].card.value in db.cards.rows && db.cards.rows[db.requests.rows[r].card.value].knipjes
        == FULL_CARD
  {
    hide CardOk;
    if db.requests.rows[r].card.Some? {
      assert db.requests.rows[r].card.value in CardsOf(db.requests.rows, {r});
      OpenCardsUntouched(db, {r}, db.requests.rows[r].card.value);
    }
  }

  lemma CancelSucceeds(db: Db, r: nat, user: nat)
    requires Inv(db)
    ensures CancelRequest(db, r, user).Ok? <==>
      r in db.requests.rows && IsOpenOf(db.requests.rows[r], user) && db.requests.rows[r].card.Some?
    ensures CancelRequest(db, r, user).Err? ==> CancelRequest(db, r, user).error == NotFound
  {
    hide CardOk;
    if r in db.requests.rows && db.requests.rows[r].status.Open? { OpenCardIsFull(db, r); }
  }

  /** An open request of the user from before cards were issued on request, with or without trust knipjes used. */
  ghost predicate LegacyOf(requests: map<nat, Request>, user: nat, r: nat, used: bool) {
    r in requests && IsOpenOf(requests[r], user) && requests[r].card.None? && (requests[r].trustUsed > 0 <==> used)
  }

  /** Cancel-all succeeds exactly when every open request has a card, and each error has exactly its own cause. */
  lemma CancelAllSucceeds(db: Db, user: nat)
    requires Inv(db)
    ensures CancelAll(db, user).Ok? <==>
      forall r :: r in db.requests.rows && IsOpenOf(db.requests.rows[r], user) ==> db.requests.rows[r].card.Some?
    ensures CannotCancelTrustUsed in Obstacles(db, user) <==> exists r :: LegacyOf(db.requests.rows, user, r, true)
    ensures NotFound in Obstacles(db, user) <==> exists r :: LegacyOf(db.requests.rows, user, r, false)
    ensures Obstacles(db, user) <= {CannotCancelTrustUsed, NotFound}
  {
    forall r | r in db.requests.rows && IsOpenOf(db.requests.rows[r], user)
      ensures Obstacle(db, db.requests.rows[r]) == LegacyObstacle(db.requests.rows[r])
    {
      OpenCardIsFull(db, r);
      LegacyFits(db, r);
    }
    hide Inv, Obstacle;
    ObstaclesOf(db, user);
  }

  function LegacyObstacle(row: Request): Option<Error> {
    if row.card.Some? then None else if row.trustUsed > 0 then Some(CannotCancelTrustUsed) else Some(NotFound)
  }

  lemma LegacyFits(db: Db, r: nat)
    requires Inv(db) && r in db.requests.rows
    ensures db.requests.rows[r].trustUsed <= FULL_CARD
  {
    assert RequestFits(db.cards.rows, db.requests.rows[r]);
  }

  lemma ObstaclesOf(db: Db, user: nat)
    requires forall r :: r in db.requests.rows && IsOpenOf(db.requests.rows[r], user) ==>
      Obstacle(db, db.requests.rows[r]) == LegacyObstacle(db.requests.rows[r])
    ensures Obstacles(db, user) == {} <==>
      forall r :: r in db.requests.rows && IsOpenOf(db.requests.rows[r], user) ==> db.requests.rows[r].card.Some?
    ensures CannotCancelTrustUsed in Obstacles(db, user) <==> exists r :: LegacyOf(db.requests.rows, user, r, true)
    ensures NotFound in Obstacles(db, user) <==> exists r :: LegacyOf(db.requests.rows, user, r, false)
    ensures Obstacles(db, user) <= {CannotCancelTrustUsed, NotFound}
  {
    hide Obstacle;
    forall r, used | LegacyOf(db.requests.rows, user, r, used)
      ensures (if used then CannotCancelTrustUsed else NotFound) in Obstacles(db, user)
    {
      assert r in OpenOf(db.requests.rows, user);
    }
    forall e | e in Obstacles(db, user)
      ensures e == CannotCancelTrustUsed ==> exists r :: LegacyOf(db.requests.rows, user, r, true)
      ensures e == NotFound ==> exists r :: LegacyOf(db.requests.rows, user, r, false)
      ensures e == CannotCancelTrustUsed || e == NotFound
    {
      var r :| r in OpenOf(db.requests.rows, user) && r in db.requests.rows && Obstacle(db, db.requests.rows[r])
        == Some(e);
      var used := db.requests.rows[r].trustUsed > 0;
      assert LegacyOf(db.requests.rows, user, r, used);
    }
    forall r | r in db.requests.rows && IsOpenOf(db.requests.rows[r], user) && db.requests.rows[r].card.None?
      ensures Obstacles(db, user) != {}
    {
      assert LegacyOf(db.requests.rows, user, r, db.requests.rows[r].trustUsed > 0);
    }
  }

  /** Every open request has its card: no legacy request is left. */
  ghost predicate AllCarded(requests: map<nat, Request>) {
    forall r :: r in requests && requests[r].status.Open? ==> requests[r].card.Some?
  }

  lemma WithdrawKeepsCarded(db: Db, rs: set<nat>)
    requires OneRequestPerCard(db.requests.rows) && AllCarded(db.requests.rows)
    requires forall r :: r in rs ==> r in db.requests.rows && db.requests.rows[r].status.Open?
    ensures AllCarded(Withdraw(db, rs).requests.rows)
  {
    forall r | r in db.requests.rows && Withdraw(db, rs).requests.rows[r].status.Open? ensures Withdraw(db,
        rs).requests.rows[r].card.Some? {
      WithdrawnRow(db, rs, r);
    }
  }

  lemma RenameKeepsCarded(db: Db, src: nat, dst: nat)
    requires AllCarded(db.requests.rows)
    ensures AllCarded(Renamed(db, src, dst).requests.rows)
  {}

  lemma AccountsKeepCarded(db: Db, op: Op)
    requires Inv(db) && AllCarded(db.requests.rows) && Perform(db, op).Some? && (op.MergeOp? || op.DeleteOp?)
    ensures AllCarded(Step(db, op).requests.rows)
  {
    hide CardsOk, AllCarded, DeleteUser;
    match op
    case MergeOp(src, dst, actor) =>
      MergeOutcome(db, src, dst, actor);
      RenameKeepsCarded(db, src, dst);
    case DeleteOp(user, actor) =>
      DeleteOutcome(db, user, actor);
      var rs := OpenOf(db.requests.rows, user);
      WithdrawKeepsCarded(db, rs);
      var (closed, placeholder) := Closed(db, user, actor);
      assert closed.requests == Withdraw(db, rs).requests;
      hide Inv, Withdraw, Closed;
      RenameKeepsCarded(closed, user, placeholder);
  }

  lemma WithdrawalKeepsCarded(db: Db, op: Op)
    requires Inv(db) && AllCarded(db.requests.rows) && Perform(db, op).Some?
      && (op.RejectOp? || op.CancelRequestOp? || op.CancelAllOp?)
    ensures AllCarded(Step(db, op).requests.rows)
  {
    hide CardsOk, Withdraw, AllCarded;
    match op
    case RejectOp(r) => WithdrawKeepsCarded(db, {r});
    case CancelRequestOp(r, user) => WithdrawKeepsCarded(db, {r});
    case CancelAllOp(user) => WithdrawKeepsCarded(db, OpenOf(db.requests.rows, user));
  }

  lemma StepKeepsCarded(db: Db, op: Op)
    requires Inv(db) && AllCarded(db.requests.rows)
    ensures AllCarded(Step(db, op).requests.rows)
  {
    hide Inv, Perform;
    if Perform(db, op).Some? {
      if op.RejectOp? || op.CancelRequestOp? || op.CancelAllOp? {
        WithdrawalKeepsCarded(db, op);
      } else if op.MergeOp? || op.DeleteOp? {
        AccountsKeepCarded(db, op);
      } else if op.RequestOp? || op.SellOp? || op.FulfilOp? || op.PlaceRequestOp? || op.PlaceSaleOp? {
        var r, row := PutRow(db, op);
      } else {
        OtherRequests(db, op);
      }
    }
  }

  /** From a start without legacy requests every open request keeps its card, so reject, cancel and cancel-all never
      report used knipjes. */
  lemma {:induction false} AllCardedOverRuns(db: Db, ops: seq<Op>)
    requires Inv(db) && AllCarded(db.requests.rows)
    ensures AllCarded(Run(db, ops).requests.rows)
    decreases |ops|
  {
    hide Inv, AllCarded;
    if ops != [] {
      StepKeeps(db, ops[0]);
      StepKeepsCarded(db, ops[0]);
      AllCardedOverRuns(Step(db, ops[0]), ops[1..]);
    }
  }

  lemma KnipjesNeverUsed(start: Db, ops: seq<Op>, r: nat, user: nat)
    requires Initial(start) && start.requests.rows == map[]
    ensures var db := Run(start, ops);
      && AllCarded(db.requests.rows)
      && Reject(db, r) != Err(CannotRejectKnipjesUsed)
      && CancelRequest(db, r, user) != Err(CannotCancelTrustUsed)
      && CancelAll(db, user).Ok?
  {
    Reachable(start, []);
    AllCardedOverRuns(start, ops);
    Reachable(start, ops);
    hide Inv;
    var db := Run(start, ops);
    RejectSucceeds(db, r);
    CancelSucceeds(db, r, user);
    CancelAllSucceeds(db, user);
  }

  // ----- Reservations -----

  /** Open orders on an online card never exceed its balance plus the live manual punches. */
  lemma ReservationBound(start: Db, ops: seq<Op>, c: nat)
    requires Initial(start) && c in Run(start, ops).cards.rows && Run(start, ops).cards.rows[c].source == Online
    ensures c in Run(start, ops).log
    ensures var db := Run(start, ops);
      Total(db.orders.rows, PendingOn(c), db.orders.next) <= db.cards.rows[c].knipjes + LivePunches(db.log[c])
  {
    hide CardOk;
    Reachable(start, ops);
    BoundNow(Run(start, ops), c);
  }

  lemma BoundNow(db: Db, c: nat)
    requires Inv(db) && c in db.cards.rows && db.cards.rows[c].source == Online
    ensures Total(db.orders.rows, PendingOn(c), db.orders.next) <= db.cards.rows[c].knipjes + LivePunches(db.log[c])
  {
    hide CardOk;
    var v := View(db, c);
    ReservedView(v);
    TotalCongruent(db.orders.rows, PendingOn(c), v.orders, PendingQuantity, v.n);
  }

  lemma ReservedView(v: CardView)
    requires CardOk(v)
    ensures Reserved(v)
  {}

  // ----- Meals -----

  ghost predicate MealBookable(db: Db, c: nat, day: int) {
    && c in db.cards.rows && db.cards.rows[c].kind == Avondeten && db.cards.rows[c].knipjes > 0
    && !AwaitsVerification(db.requests.rows, c) && MealKey(c, day) !in db.meals
  }

  /** The batch succeeds exactly when every distinct positive id can be booked; two lists that select the same cards
      have the same outcome; each selected card loses one knipje and gains one meal, and nothing else changes. */
  lemma MealBatch(db: Db, ids: seq<int>, day: int, who: nat)
    requires Inv(db)
    ensures RegisterMeals(db, ids, day, who).Ok? <==> forall c :: c in Selected(ids) ==> MealBookable(db, c, day)
    ensures forall other: seq<int> :: Selected(other) == Selected(ids) && RegisterMeals(db, ids, day, who).Ok? ==>
      RegisterMeals(db, other, day, who) == RegisterMeals(db, ids, day, who)
    ensures RegisterMeals(db, ids, day, who).Ok? ==>
      var after := RegisterMeals(db, ids, day, who).value;
      && after.(cards := db.cards, meals := db.meals, log := db.log) == db
      && after.cards.rows.Keys == db.cards.rows.Keys
      && after.meals.Keys == db.meals.Keys + MealKeys(Selected(ids), day)
      && forall c :: c in db.cards.rows ==>
           after.cards.rows[c]
             == (if c in Selected(ids) then db.cards.rows[c].(knipjes := db.cards.rows[c].knipjes - 1)
               else db.cards.rows[c])
  {
    hide CardOk;
    FirstRefusalNone(db, ids, day);
    forall c | c in Selected(ids) ensures MealError(db, c, day).None? <==> MealBookable(db, c, day) {}
    forall other: seq<int> | Selected(other) == Selected(ids) && RegisterMeals(db, ids, day, who).Ok?
      ensures RegisterMeals(db, other, day, who) == RegisterMeals(db, ids, day, who)
    {
      FirstRefusalNone(db, other, day);
    }
  }

  // ----- Sales are forever -----

  /** Every sale keeps its kind, price and month. */
  ghost predicate SalesKept(before: map<nat, Request>, after: map<nat, Request>) {
    forall r :: r in before && before[r].status.Fulfilled? ==>
      && r in after && after[r].status.Fulfilled? && after[r].kind == before[r].kind
      && after[r].price == before[r].price && after[r].status.month == before[r].status.month
  }

  lemma StepKeepsSales(db: Db, op: Op)
    requires Inv(db)
    ensures SalesKept(db.requests.rows, Step(db, op).requests.rows)
  {
    hide Inv, Perform, SalesKept, SameRequests;
    if Perform(db, op).Some? {
      match op
      case RejectOp(_) => WithdrawalKeepsSales(db, op);
      case CancelRequestOp(_, _) => WithdrawalKeepsSales(db, op);
      case CancelAllOp(_) => WithdrawalKeepsSales(db, op);
      case MergeOp(_, _, _) => AccountsKeepSales(db, op);
      case DeleteOp(_, _) => AccountsKeepSales(db, op);
      case RequestOp(_, _) => NewRequestKeepsSales(db, op);
      case SellOp(_, _, _, _, _) => NewRequestKeepsSales(db, op);
      case FulfilOp(_, _, _, _) => NewRequestKeepsSales(db, op);
      case PlaceRequestOp(_, _) => NewRequestKeepsSales(db, op);
      case PlaceSaleOp(_, _, _, _, _) => NewRequestKeepsSales(db, op);
      case _ => NotAboutRequests(db, op);
    } else {
      Unchanged(db.requests.rows);
    }
  }

  lemma Unchanged(requests: map<nat, Request>)
    ensures SalesKept(requests, requests)
  {}

  lemma WithdrawalKeepsSales(db: Db, op: Op)
    requires Inv(db) && Perform(db, op).Some? && (op.RejectOp? || op.CancelRequestOp? || op.CancelAllOp?)
    ensures SalesKept(db.requests.rows, Step(db, op).requests.rows)
  {
    hide CardsOk, Withdraw, SalesKept;
    match op
    case RejectOp(r) => WithdrawKeepsSales(db, {r});
    case CancelRequestOp(r, user) => WithdrawKeepsSales(db, {r});
    case CancelAllOp(user) => WithdrawKeepsSales(db, OpenOf(db.requests.rows, user));
  }

  lemma AccountsKeepSales(db: Db, op: Op)
    requires Inv(db) && Perform(db, op).Some? && (op.MergeOp? || op.DeleteOp?)
    ensures SalesKept(db.requests.rows, Step(db, op).requests.rows)
  {
    hide Inv, Merge, DeleteUser, SalesKept;
    match op
    case MergeOp(src, dst, actor) => MergeKeepsSales(db, src, dst, actor);
    case DeleteOp(user, actor) => DeleteKeepsSales(db, user, actor);
  }

  lemma NewRequestKeepsSales(db: Db, op: Op)
    requires Inv(db) && Perform(db, op).Some?
    requires op.RequestOp? || op.SellOp? || op.FulfilOp? || op.PlaceRequestOp? || op.PlaceSaleOp?
    ensures SalesKept(db.requests.rows, Step(db, op).requests.rows)
  {
    var r, row := PutRow(db, op);
    hide Inv, SalesKept;
    RowPut(db.requests.rows, r, row);
  }

  /** Requesting, selling and fulfilling write one row, which has a card and is not a sale yet. */
  lemma PutRow(db: Db, op: Op) returns (r: nat, row: Request)
    requires Inv(db) && Perform(db, op).Some?
    requires op.RequestOp? || op.SellOp? || op.FulfilOp? || op.PlaceRequestOp? || op.PlaceSaleOp?
    ensures Step(db, op).requests.rows == db.requests.rows[r := row] && row.card.Some?
    ensures r in db.requests.rows ==> !db.requests.rows[r].status.Fulfilled?
  {
    assert db.requests.Valid();
    hide Inv, BuyerError, Fulfil;
    r := if op.FulfilOp? then op.request else db.requests.next;
    var after := Step(db, op).requests.rows;
    if op.FulfilOp? { FulfilPuts(db, r, op.admin, op.price, op.month); }
    assert r in after && after == db.requests.rows[r := after[r]];
    row := after[r];
  }

  lemma FulfilPuts(db: Db, r: nat, admin: nat, price: int, month: int)
    requires Fulfil(db, r, admin, price, month).Ok?
    ensures r in db.requests.rows && !db.requests.rows[r].status.Fulfilled?
    ensures var after := Fulfil(db, r, admin, price, month).value.requests.rows;
      r in after && after == db.requests.rows[r := after[r]] && after[r].card.Some?
  {}

  lemma RowPut(requests: map<nat, Request>, r: nat, row: Request)
    requires r in requests ==> !requests[r].status.Fulfilled?
    ensures SalesKept(requests, requests[r := row])
  {}

  lemma NotAboutRequests(db: Db, op: Op)
    requires Perform(db, op).Some?
    requires !op.RejectOp? && !op.CancelRequestOp? && !op.CancelAllOp? && !op.MergeOp? && !op.DeleteOp?
    requires !op.RequestOp? && !op.SellOp? && !op.FulfilOp? && !op.PlaceRequestOp? && !op.PlaceSaleOp?
    ensures SalesKept(db.requests.rows, Step(db, op).requests.rows)
  {
    OtherRequests(db, op);
    hide Perform;
    Unchanged(db.requests.rows);
  }

  lemma OtherRequests(db: Db, op: Op)
    requires Perform(db, op).Some?
    requires !op.RejectOp? && !op.CancelRequestOp? && !op.CancelAllOp? && !op.MergeOp? && !op.DeleteOp?
    requires !op.RequestOp? && !op.SellOp? && !op.FulfilOp? && !op.PlaceRequestOp? && !op.PlaceSaleOp?
    ensures SameRequests(db, op)
  {}

  /** The operation is not about requests. */
  ghost predicate SameRequests(db: Db, op: Op) { Step(db, op).requests == db.requests }

  lemma MergeKeepsSales(db: Db, src: nat, dst: nat, actor: nat)
    requires Inv(db) && Merge(db, src, dst, actor).Ok?
    ensures SalesKept(db.requests.rows, Merge(db, src, dst, actor).value.requests.rows)
  {
    hide CardsOk;
    MergeOutcome(db, src, dst, actor);
  }

  lemma DeleteKeepsSales(db: Db, user: nat, actor: nat)
    requires Inv(db) && DeleteUser(db, user, actor).Ok?
    ensures SalesKept(db.requests.rows, DeleteUser(db, user, actor).value.requests.rows)
  {
    hide CardsOk, DeleteUser;
    DeleteOutcome(db, user, actor);
    var rs := OpenOf(db.requests.rows, user);
    WithdrawKeepsSales(db, rs);
    var (closed, placeholder) := Closed(db, user, actor);
    assert closed.requests == Withdraw(db, rs).requests;
    hide Inv, Withdraw, Closed;
    RenameKeepsSales(closed, user, placeholder);
  }

  lemma RenameKeepsSales(db: Db, src: nat, dst: nat)
    ensures SalesKept(db.requests.rows, Renamed(db, src, dst).requests.rows)
  {}

  lemma WithdrawKeepsSales(db: Db, rs: set<nat>)
    requires OneRequestPerCard(db.requests.rows) && forall r :: r in rs ==>
      r in db.requests.rows && db.requests.rows[r].status.Open?
    ensures SalesKept(db.requests.rows, Withdraw(db, rs).requests.rows)
  {
    forall r | r in db.requests.rows ensures db.requests.rows[r].status.Fulfilled? ==>
      Withdraw(db, rs).requests.rows[r] == db.requests.rows[r] {
      WithdrawnRow(db, rs, r);
    }
  }

  /** No run ever takes a sale back. */
  lemma {:induction false} RunKeepsSales(db: Db, ops: seq<Op>)
    requires Inv(db)
    ensures SalesKept(db.requests.rows, Run(db, ops).requests.rows)
    decreases |ops|
  {
    hide Inv;
    if ops != [] {
      StepKeeps(db, ops[0]);
      StepKeepsSales(db, ops[0]);
      RunKeepsSales(Step(db, ops[0]), ops[1..]);
    }
  }
}
