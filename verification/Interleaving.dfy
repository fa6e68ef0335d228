/** Transactions that run side by side under row locks. Each statement of a transaction reads the latest committed
    database; its writes become visible at its commit. The result: whatever the interleaving, the committed databases
    are those of a run of whole operations. */
module Interleaving {
  import opened Prelude
  import opened Journal
  import opened Ledger
  import opened CardBook
  import opened CardSteps
  import opened Invariant
  import opened Preservation
  import opened Lifecycle
  import opened Withdrawals
  import opened Runs

  /** A row locked FOR UPDATE. */
  datatype Lock = CardRow(c: nat) | OrderRow(o: nat) | LineRow(lc: nat, li: nat) | RequestRow(r: nat)

  /** Where a transaction stands, with the rows it has read under lock. */
  datatype Txn =
    | Begun(op: Op)
    | BuyerChecked(op: Op)
    | OrderOnCard(op: Op, c: nat, card: Card)
    | OrderAdmitted(op: Op, c: nat, card: Card)
    | DeliveringOrder(op: Op, o: nat, order: Order)
    | DeliveringOnCard(op: Op, o: nat, order: Order, c: nat, card: Card)
    | DeliveryVerified(op: Op, o: nat, order: Order, c: nat, card: Card)
    | PhysicalFound(op: Op, o: nat, order: Order, c: nat, card: Card)
    | NoCardFound(op: Op, o: nat, order: Order)
    | CancellingOrder(op: Op, o: nat, order: Order)
    | PunchingCard(op: Op, c: nat, card: Card)
    | PunchVerified(op: Op, c: nat, card: Card)
    | BookingMeals(op: Op, read: map<nat, Card>)
    | EstimatingCard(op: Op, c: nat, card: Card)
    | UndoingLine(op: Op, c: nat, i: nat, line: Line)
    | UndoingOnCard(op: Op, c: nat, i: nat, line: Line, card: Card)
    | Fulfilling(op: Op, r: nat, request: Request)
    | Withdrawing(op: Op, r: nat, request: Request)
    | WithdrawingCard(op: Op, r: nat, request: Request, c: nat, card: Card)
    | WithdrawingAll(op: Op, rows: map<nat, Request>)

  function Holds(t: Txn): set<Lock> {
    match t
    case Begun(_) => {}
    case BuyerChecked(_) => {}
    case OrderOnCard(_, c, _) => {CardRow(c)}
    case OrderAdmitted(_, c, _) => {CardRow(c)}
    case DeliveringOrder(_, o, _) => {OrderRow(o)}
    case DeliveringOnCard(_, o, _, c, _) => {OrderRow(o), CardRow(c)}
    case DeliveryVerified(_, o, _, c, _) => {OrderRow(o), CardRow(c)}
    case PhysicalFound(_, o, _, c, _) => {OrderRow(o), CardRow(c)}
    case NoCardFound(_, o, _) => {OrderRow(o)}
    case CancellingOrder(_, o, _) => {OrderRow(o)}
    case PunchingCard(_, c, _) => {CardRow(c)}
    case PunchVerified(_, c, _) => {CardRow(c)}
    case BookingMeals(_, read) => set c | c in read :: CardRow(c)
    case EstimatingCard(_, c, _) => {CardRow(c)}
    case UndoingLine(_, c, i, _) => {LineRow(c, i)}
    case UndoingOnCard(_, c, i, _, _) => {LineRow(c, i), CardRow(c)}
    case Fulfilling(_, r, _) => {RequestRow(r)}
    case Withdrawing(_, r, _) => {RequestRow(r)}
    case WithdrawingCard(_, r, _, c, _) => {RequestRow(r), CardRow(c)}
    case WithdrawingAll(_, rows) => set r | r in rows :: RequestRow(r)
  }

  // ----- What a transaction does next -----

  predicate ValidOrderInput(op: Op) {
    && op.OrderOp? && |op.remark| <= REMARK_MAX && QUANTITY_MIN <= op.quantity <= QUANTITY_MAX
    && ParseBread(op.bread).Ok? && ParseFilling(op.filling).Ok?
  }

  /** SELECT ... FOR UPDATE of the order row passed its checks. */
  predicate OrderRead(db: Db, o: nat, order: Order) {
    && o in db.orders.rows && db.orders.rows[o] == order && order.status.Pending?
    && QUANTITY_MIN <= order.quantity <= QUANTITY_MAX
  }

  predicate CardRead(db: Db, c: nat, card: Card) {
    c in db.cards.rows && db.cards.rows[c] == card
  }

  predicate LineRead(db: Db, c: nat, i: nat, line: Line) {
    && c in db.log && i < |db.log[c]| && db.log[c][i] == line
    && Undoable(line.reason) && line.reversedBy.None? && line.delta != 0
  }

  predicate RequestRead(db: Db, r: nat, request: Request) {
    r in db.requests.rows && db.requests.rows[r] == request && request.status.Open?
  }

  predicate PunchAllowed(op: Op, card: Card) {
    && op.PunchOp? && op.puncher.Some? && (op.puncher.value.admin || op.puncher.value.operator)
    && card.source != Physical && card.knipjes > 0
  }

  /** The row of one open request that cancel-all has locked. */
  predicate OwnRequestRead(db: Db, r: nat, request: Request, user: nat) {
    RequestRead(db, r, request) && request.user == user && request.card.Some?
  }

  /** The card is locked and a meal can be booked on it. */
  predicate MealRead(db: Db, c: nat, card: Card, day: int) {
    CardRead(db, c, card) && MealError(db, c, day).None?
  }

  /** What the first SELECT ... FOR UPDATE of `op` has established when the transaction stands at `u`. */
  ghost predicate FirstRead(db: Db, op: Op, u: Txn) {
    && u.op == op
    && match op
       case OrderOp(user, onCard, _, _, _, _) =>
         && ValidOrderInput(op) && u.OrderOnCard? && onCard == Some(u.c) && CardRead(db, u.c, u.card)
         && u.card.owner == user && u.card.kind == Tosti && u.card.source == Online
       case DeliverOp(o, _) => u.DeliveringOrder? && u.o == o && OrderRead(db, o, u.order)
       case CancelOrderOp(o, actor, staff) =>
         u.CancellingOrder? && u.o == o && CancelRead(db, o, u.order) && (staff || u.order.user == actor)
       case PunchOp(c, _) => u.PunchingCard? && u.c == c && CardRead(db, c, u.card) && PunchAllowed(op, u.card)
       case MealsOp(_, _, _) => u.BookingMeals? && u.read == map[]
       case EstimateOp(c, value, _) =>
         u.EstimatingCard? && u.c == c && 0 <= value <= FULL_CARD && CardRead(db, c, u.card) && u.card.source
           == Physical
       case UndoOp(c, i, _) => u.UndoingLine? && u.c == c && u.i == i && LineRead(db, c, i, u.line)
       case FulfilOp(r, _, _, _) => u.Fulfilling? && u.r == r && RequestRead(db, r, u.request)
       case RejectOp(r) => u.Withdrawing? && u.r
         == r && RequestRead(db, r, u.request) && (u.request.card.Some? || u.request.trustUsed == 0)
       case CancelRequestOp(r, user) =>
         u.Withdrawing? && u.r == r && RequestRead(db, r, u.request) && u.request.user == user && u.request.card.Some?
       case CancelAllOp(user) => u.WithdrawingAll? && forall r :: r in u.rows ==> OwnRequestRead(db, r, u.rows[r], user)
       case RequestOp(_, _) => u.BuyerChecked?
       case SellOp(_, _, _, _, _) => u.BuyerChecked?
       case _ => false
  }

  predicate CancelRead(db: Db, o: nat, order: Order) {
    o in db.orders.rows && db.orders.rows[o] == order && order.status.Pending?
  }

  /** What the statement between `t` and `u` has established, and the locks of `u` keep true. */
  ghost predicate Relied(db: Db, t: Txn, u: Txn) {
    match t
    case Begun(op) => FirstRead(db, op, u)
    case OrderOnCard(op, c, card) =>
      && u == OrderAdmitted(op, c, card) && op.OrderOp?
      && Total(db.orders.rows, PendingOf(op.user, c), db.orders.next) + op.quantity <= card.knipjes
    case DeliveringOrder(op, o, order) =>
      && u.op == op
      && (match u
         case DeliveringOnCard(_, p, q, c, card) =>
           && p == o && q == order && order.card == Some(c) && CardRead(db, c, card)
           && card.owner == order.user && card.kind == Tosti && card.source == Online
         case PhysicalFound(_, p, q, c, card) =>
           p == o && q == order && order.card.None? && CardRead(db, c, card) && IsPhysicalTosti(card, order.user)
         case NoCardFound(_, p, q) => p == o && q == order && order.card.None?
         case _ => false)
    case DeliveringOnCard(op, o, order, c, card) =>
      && u == DeliveryVerified(op, o, order, c, card)
      && !AwaitsVerification(db.requests.rows, c) && card.knipjes >= order.quantity
    case PunchingCard(op, c, card) =>
      u == PunchVerified(op, c, card) && !AwaitsVerification(db.requests.rows, c)
    case BookingMeals(op, read) =>
      && op.MealsOp? && u.BookingMeals? && u.op == op
      && exists c ::
           && c in u.read && c !in read && c in Selected(op.cards) && u.read == read[c := u.read[c]]
           && MealRead(db, c, u.read[c], op.day)
    case UndoingLine(op, c, i, line) =>
      && u.UndoingOnCard? && u.op == op && u.c == c && u.i == i && u.line == line && CardRead(db, c, u.card)
      && 0 <= u.card.knipjes - line.delta <= FULL_CARD
    case Withdrawing(op, r, request) =>
      && u.WithdrawingCard? && u.op == op && u.r == r && u.request == request && request.card == Some(u.c)
      && CardRead(db, u.c, u.card)
      && u.card.knipjes >= FULL_CARD
    case _ => false
  }

  /** What the statement has seen without a lock, so that it may be out of date at the commit. */
  predicate Glimpsed(db: Db, t: Txn, u: Txn) {
    match u
    case BuyerChecked(RequestOp(user, kind)) => BuyerError(db, user, kind).None?
    case BuyerChecked(SellOp(buyer, _, kind, _, _)) => BuyerError(db, buyer, kind).None?
    case NoCardFound(_, _, order) => FindPhysicalTostiCard(db.cards, order.user).None?
    case WithdrawingAll(op, rows) => op.CancelAllOp? && rows.Keys == OpenOf(db.requests.rows, op.user)
    case _ => true
  }

  /** The next statement of `t` succeeds on the committed database `db` and takes it to `u`. The search for a physical
      card may have ranked the cards by older balances, so any physical card of the user may come out of it. */
  ghost predicate Advances(db: Db, t: Txn, u: Txn) { Relied(db, t, u) && Glimpsed(db, t, u) }

  predicate AtCommit(t: Txn) {
    match t
    case BuyerChecked(_) => true
    case OrderAdmitted(_, _, _) => true
    case DeliveryVerified(_, _, _, _, _) => true
    case PhysicalFound(_, _, _, _, _) => true
    case NoCardFound(_, _, _) => true
    case CancellingOrder(_, _, _) => true
    case PunchVerified(_, _, _) => true
    case BookingMeals(op, read) => op.MealsOp? && read.Keys == Selected(op.cards)
    case EstimatingCard(_, _, _) => true
    case UndoingOnCard(_, _, _, _, _) => true
    case Fulfilling(_, _, _) => true
    case Withdrawing(_, _, request) => request.card.None?
    case WithdrawingCard(_, _, _, _, _) => true
    case WithdrawingAll(_, _) => true
    case _ => false
  }

  /** UPDATE cards SET knipjes_remaining and INSERT INTO card_transactions, from what the transaction has read. */
  function WriteBalance(db: Db, c: nat, value: int, lines: seq<Line>): Db
    requires c in db.cards.rows
  {
    db.(cards := db.cards.Put(c, db.cards.rows[c].(knipjes := value)), log := db.log[c := lines])
  }

  /** The rows still exist for the writes to hit, and no constraint refuses an insert. */
  predicate Writable(db: Db, t: Txn) {
    match t
    case BuyerChecked(RequestOp(user, kind)) => PlaceRequest(db, user, kind).Ok?
    case BuyerChecked(SellOp(buyer, seller, kind, price, month)) => PlaceSale(db, buyer, seller, kind, price, month).Ok?
    case OrderAdmitted(op, _, _) => ValidOrderInput(op)
    case DeliveryVerified(op, o, _, c, _) => op.DeliverOp? && o in db.orders.rows && c in db.cards.rows
    case PhysicalFound(op, o, _, c, _) => op.DeliverOp? && o in db.orders.rows && c in db.cards.rows
    case NoCardFound(op, o, _) => op.DeliverOp? && o in db.orders.rows
    case CancellingOrder(op, o, _) => op.CancelOrderOp? && o in db.orders.rows
    case PunchVerified(op, c, _) => op.PunchOp? && op.puncher.Some? && c in db.cards.rows
    case BookingMeals(op, read) => op.MealsOp? && forall c :: c in read ==> c in db.cards.rows
    case EstimatingCard(op, c, _) => op.EstimateOp? && c in db.cards.rows
    case UndoingOnCard(op, c, i, _, _) => op.UndoOp? && c in db.cards.rows && c in db.log && i < |db.log[c]|
    case Fulfilling(op, r, request) => op.FulfilOp? && r in db.requests.rows && request.trustUsed <= FULL_CARD
    case Withdrawing(op, r, _) => r in db.requests.rows
    case WithdrawingCard(op, r, _, _, _) => r in db.requests.rows
    case WithdrawingAll(_, rows) => forall r :: r in rows ==> r in db.requests.rows
    case _ => false
  }

  /** The database after the writes of `t`: new values computed from the rows it read, applied to the rows as committed.
      */
  function Writes(db: Db, t: Txn): Db
    requires Writable(db, t)
  {
    match t
    case BuyerChecked(RequestOp(user, kind)) => PlaceRequest(db, user, kind).value
    case BuyerChecked(SellOp(buyer, seller, kind, price, month))
      => PlaceSale(db, buyer, seller, kind, price, month).value
    case OrderAdmitted(op, c, _) =>
      db.(orders := db.orders.Insert(Order(op.user, Some(c), ParseBread(op.bread).value, ParseFilling(op.filling).value,
                                           op.quantity, op.remark, Pending)))
    case DeliveryVerified(op, o, order, c, card)
      => WriteDelivery(db, o, c, card, card.knipjes - order.quantity, op.actor)
    case PhysicalFound(op, o, order, c, card) =>
      WriteDelivery(db, o, c, card, if card.knipjes < order.quantity then 0 else card.knipjes - order.quantity,
          op.actor)
    case NoCardFound(op, o, _) => SetOrder(db, o, db.orders.rows[o].(status := Delivered(Some(op.actor))))
    case CancellingOrder(op, o, _) => SetOrder(db, o, db.orders.rows[o].(status := Cancelled(Some(op.actor))))
    case PunchVerified(op, c, card) =>
      WriteBalance(db, c, db.cards.rows[c].knipjes - 1,
                   Lines(db.log, c) + [Plain(-1, card.knipjes - 1, ManualKnipje, Some(op.puncher.value.id))])
    case BookingMeals(op, read) => WriteMeals(db, read, op.day, op.actor)
    case EstimatingCard(op, c, card) =>
      if card.knipjes == op.value then db
      else WriteBalance(db, c, op.value,
          Lines(db.log, c) + [Plain(op.value - card.knipjes, op.value, EstimateAdjust, Some(op.actor))])
    case UndoingOnCard(op, c, i, line, card) =>
      var balance := card.knipjes - line.delta;
      var undo := Line(-line.delta, balance, Undo, Some(op.actor), None, None, Some(i), None);
      WriteBalance(db, c, balance,
          db.log[c][i := db.log[c][i].(reversedBy := Some(|db.log[c]|), meal := None)] + [undo])
        .(meals := if line.meal.Some? then db.meals - {MealKey(c, line.meal.value)} else db.meals)
    case Fulfilling(op, r, request) =>
      var row := db.requests.rows[r];
      if request.card.Some? then SetRequest(db, r, SoldRow(row, op.admin, op.price, op.month, row.card))
      else SetRequest(Issue(db, Card(request.user, request.kind, Online, FULL_CARD - request.trustUsed),
          Some(op.admin)), r,
                      SoldRow(row, op.admin, op.price, op.month, Some(db.cards.next)))
    case Withdrawing(_, r, _) => MarkAll(db, {r})
    case WithdrawingCard(_, r, _, c, _) => DeleteCards(MarkAll(db, {r}), {c})
    case WithdrawingAll(_, rows) => DeleteCards(MarkAll(db, rows.Keys), Drops(t))
  }

  function WriteDelivery(db: Db, o: nat, c: nat, card: Card, balance: int, actor: nat): Db
    requires o in db.orders.rows && c in db.cards.rows
  {
    var line := Line(balance - card.knipjes, balance, TostiDelivered, Some(actor), Some(o), None, None, None);
    SetOrder(WriteBalance(db, c, balance, Lines(db.log, c) + [line]), o,
             db.orders.rows[o].(status := Delivered(Some(actor)), card := Some(c)))
  }

  /** One meal on every card read: balances count down from the committed rows, log lines show what was read. */
  function WriteMeals(db: Db, read: map<nat, Card>, day: int, actor: nat): Db
    requires forall c :: c in read ==> c in db.cards.rows
  {
    db.(cards := Table(map c | c in db.cards.rows ::
          (if c in read then db.cards.rows[c].(knipjes := db.cards.rows[c].knipjes - 1) else db.cards.rows[c]),
              db.cards.next),
        log := map c | c in db.log.Keys + read.Keys ::
          (if c in read then Lines(db.log, c) + [MealLine(read[c], day, actor)] else db.log[c]),
        meals := WithMeals(db.meals, read.Keys, day, actor))
  }

  /** UPDATE card_requests SET status = 'cancelled'. */
  function MarkAll(db: Db, rs: set<nat>): Db {
    db.(requests := Table(MarkWithdrawn(db.requests.rows, rs), db.requests.next))
  }

  /** The cards that the commit deletes. */
  function Drops(t: Txn): set<nat> {
    match t
    case WithdrawingCard(_, _, _, c, _) => {c}
    case WithdrawingAll(_, rows) => CardsOf(rows, rows.Keys)
    case _ => {}
  }

  // ----- The system -----

  datatype Sys = Sys(db: Db, txns: map<nat, Txn>)

  datatype Action = Begin(t: nat, op: Op) | Advance(t: nat, to: Txn) | Commit(t: nat) | Abort(t: nat) | Insert(op: Op)

  ghost predicate LocksFree(s: Sys, t: nat, locks: set<Lock>) {
    forall u :: u in s.txns && u != t ==> Holds(s.txns[u]) !! locks
  }

  /** Deleting a card locks its orders and log lines; nobody else may hold one of them. */
  ghost predicate CascadeFree(s: Sys, t: nat, c: nat) {
    forall u, l :: u in s.txns && u != t && l in Holds(s.txns[u]) ==> !OnCard(s.db, l, c)
  }

  predicate OnCard(db: Db, l: Lock, c: nat) {
    match l
    case CardRow(d) => d == c
    case OrderRow(o) => o in db.orders.rows && db.orders.rows[o].card == Some(c)
    case LineRow(d, _) => d == c
    case RequestRow(_) => false
  }

  /** Single statements: a physical order is one INSERT, account maintenance one INSERT or UPDATE. */
  predicate SingleStatement(op: Op) {
    op.SaveUserOp? || (op.OrderOp? && op.onCard.None?)
  }

  ghost predicate Next(s: Sys, a: Action, s': Sys) {
    match a
    case Begin(t, op) => t !in s.txns && s' == s.(txns := s.txns[t := Begun(op)])
    case Advance(t, u) =>
      && t in s.txns && Advances(s.db, s.txns[t], u) && LocksFree(s, t, Holds(u))
      && s' == s.(txns := s.txns[t := u])
    case Commit(t) =>
      && t in s.txns && AtCommit(s.txns[t]) && Writable(s.db, s.txns[t])
      && (forall c :: c in Drops(s.txns[t]) ==> CascadeFree(s, t, c))
      && s' == Sys(Writes(s.db, s.txns[t]), s.txns - {t})
    case Abort(t) => t in s.txns && s' == s.(txns := s.txns - {t})
    case Insert(op) => SingleStatement(op) && s' == s.(db := Step(s.db, op))
  }

  // ----- What a transaction relies on while it holds its locks -----

  /** The transaction as it was one statement earlier. */
  function Earlier(t: Txn): Txn {
    match t
    case OrderAdmitted(op, c, card) => OrderOnCard(op, c, card)
    case DeliveringOnCard(op, o, order, _, _) => DeliveringOrder(op, o, order)
    case DeliveryVerified(op, o, order, c, card) => DeliveringOnCard(op, o, order, c, card)
    case PhysicalFound(op, o, order, _, _) => DeliveringOrder(op, o, order)
    case NoCardFound(op, o, order) => DeliveringOrder(op, o, order)
    case PunchVerified(op, c, card) => PunchingCard(op, c, card)
    case UndoingOnCard(op, c, i, line, _) => UndoingLine(op, c, i, line)
    case WithdrawingCard(op, r, request, _, _) => Withdrawing(op, r, request)
    case _ => Begun(t.op)
  }

  /** How many statements of `t` lie behind it; the cards of a meal batch count as one. */
  function Depth(t: Txn): nat {
    if t.Begun? then 0
    else if t.DeliveryVerified? then 3
    else if Earlier(t).Begun? then 1
    else 2
  }

  /** Every card read for a meal batch is as it was read and still bookable. */
  ghost predicate MealsRead(db: Db, op: Op, read: map<nat, Card>) {
    op.MealsOp? && forall c :: c in read ==> c in Selected(op.cards) && MealRead(db, c, read[c], op.day)
  }

  /** Everything `t` has checked under lock so far still holds of the committed database. */
  ghost predicate StillTrue(db: Db, t: Txn)
    decreases Depth(t)
  {
    if t.Begun? then true
    else if t.BookingMeals? then MealsRead(db, t.op, t.read)
    else Relied(db, Earlier(t), t) && StillTrue(db, Earlier(t))
  }

  lemma AdvanceStaysTrue(db: Db, t: Txn, u: Txn)
    requires StillTrue(db, t) && Advances(db, t, u)
    ensures StillTrue(db, u)
  {
    if !u.BookingMeals? {
      assert Earlier(u) == t;
    }
  }

  // ----- A commit is a whole operation -----

  /** The operation that the commit of `t` amounts to. Where `t` went by something it had seen without a lock, it is the
      writes alone. */
  function CommitOp(t: Txn): Op {
    match t
    case BuyerChecked(RequestOp(user, kind)) => PlaceRequestOp(user, kind)
    case BuyerChecked(SellOp(buyer, seller, kind, price, month)) => PlaceSaleOp(buyer, seller, kind, price, month)
    case DeliveryVerified(DeliverOp(o, actor), _, _, _, _) => SettleOp(o, None, actor)
    case PhysicalFound(DeliverOp(o, actor), _, _, c, _) => SettleOp(o, Some(c), actor)
    case NoCardFound(DeliverOp(o, actor), _, _) => SettleOp(o, None, actor)
    case _ => t.op
  }

  /** A commit from locally read rows is the atomic operation on the committed database. */
  lemma CommitIsAtomic(db: Db, t: Txn)
    requires Inv(db) && StillTrue(db, t) && AtCommit(t) && !t.WithdrawingAll?
    requires t.BuyerChecked? ==> Writable(db, t)
    ensures Writable(db, t) && Perform(db, CommitOp(t)) == Some(Writes(db, t))
  {
    hide StillTrue, Inv, Perform, Writes, Writable, CommitOp;
    match t
    case BuyerChecked(op) => PlacingIsAtomic(db, op);
    case OrderAdmitted(op, c, card) => OrderIsAtomic(db, op, c, card);
    case DeliveryVerified(op, o, order, c, card) => DeliveryIsAtomic(db, op, o, order, c, card);
    case PhysicalFound(op, o, order, c, card) => PhysicalIsAtomic(db, op, o, order, c, card);
    case NoCardFound(op, o, order) => BareIsAtomic(db, op, o, order);
    case CancellingOrder(op, o, order) => CancelIsAtomic(db, op, o, order);
    case PunchVerified(op, c, card) => PunchIsAtomic(db, op, c, card);
    case BookingMeals(op, read) => MealsAreAtomic(db, op, read);
    case EstimatingCard(op, c, card) => EstimateIsAtomic(db, op, c, card);
    case UndoingOnCard(op, c, i, line, card) => UndoIsAtomic(db, op, c, i, line, card);
    case Fulfilling(op, r, request) => FulfilIsAtomic(db, op, r, request);
    case Withdrawing(op, r, request) => BareWithdrawalIsAtomic(db, op, r, request);
    case WithdrawingCard(op, r, request, c, card) => WithdrawalIsAtomic(db, op, r, request, c, card);
  }

  /** The commit of `t` is its operation. */
  ghost predicate IsAtomic(db: Db, t: Txn) { Writable(db, t) && Perform(db, CommitOp(t)) == Some(Writes(db, t)) }

  lemma PlacingIsAtomic(db: Db, op: Op)
    requires StillTrue(db, BuyerChecked(op)) && Writable(db, BuyerChecked(op))
    ensures IsAtomic(db, BuyerChecked(op))
  {}

  lemma OrderIsAtomic(db: Db, op: Op, c: nat, card: Card)
    requires StillTrue(db, OrderAdmitted(op, c, card))
    ensures IsAtomic(db, OrderAdmitted(op, c, card))
  {
    assert FirstRead(db, op, OrderOnCard(op, c, card));
  }

  lemma DeliveryIsAtomic(db: Db, op: Op, o: nat, order: Order, c: nat, card: Card)
    requires StillTrue(db, DeliveryVerified(op, o, order, c, card))
    ensures IsAtomic(db, DeliveryVerified(op, o, order, c, card))
  {
    var read := DeliveringOrder(op, o, order);
    assert StillTrue(db, DeliveringOnCard(op, o, order, c, card));
    assert StillTrue(db, read) && FirstRead(db, op, read);
    assert DeliverOn(db, o, None, op.actor) == Ok(Writes(db, DeliveryVerified(op, o, order, c, card)));
  }

  lemma PhysicalIsAtomic(db: Db, op: Op, o: nat, order: Order, c: nat, card: Card)
    requires StillTrue(db, PhysicalFound(op, o, order, c, card))
    ensures IsAtomic(db, PhysicalFound(op, o, order, c, card))
  {
    assert StillTrue(db, DeliveringOrder(op, o, order)) && FirstRead(db, op, DeliveringOrder(op, o, order));
    assert DeliverOn(db, o, Some(c), op.actor) == Ok(Writes(db, PhysicalFound(op, o, order, c, card)));
  }

  lemma BareIsAtomic(db: Db, op: Op, o: nat, order: Order)
    requires StillTrue(db, NoCardFound(op, o, order))
    ensures IsAtomic(db, NoCardFound(op, o, order))
  {
    assert StillTrue(db, DeliveringOrder(op, o, order)) && FirstRead(db, op, DeliveringOrder(op, o, order));
  }

  lemma CancelIsAtomic(db: Db, op: Op, o: nat, order: Order)
    requires StillTrue(db, CancellingOrder(op, o, order))
    ensures IsAtomic(db, CancellingOrder(op, o, order))
  {}

  lemma PunchIsAtomic(db: Db, op: Op, c: nat, card: Card)
    requires StillTrue(db, PunchVerified(op, c, card))
    ensures IsAtomic(db, PunchVerified(op, c, card))
  {
    assert FirstRead(db, op, PunchingCard(op, c, card));
  }

  lemma MealsAreAtomic(db: Db, op: Op, read: map<nat, Card>)
    requires StillTrue(db, BookingMeals(op, read)) && AtCommit(BookingMeals(op, read))
    ensures IsAtomic(db, BookingMeals(op, read))
  {
    FirstRefusalNone(db, op.cards, op.day);
    assert forall c :: c in Selected(op.cards) ==> MealRead(db, c, read[c], op.day);
    MealsWritten(db, read, op.day, op.actor);
  }

  lemma MealsWritten(db: Db, read: map<nat, Card>, day: int, actor: nat)
    requires forall c :: c in read ==> c in db.cards.rows && CardRead(db, c, read[c])
    ensures WriteMeals(db, read, day, actor) == BookMeals(db, read.Keys, day, actor)
  {
    var a, b := WriteMeals(db, read, day, actor), BookMeals(db, read.Keys, day, actor);
    assert a.cards.rows == b.cards.rows && a.log == b.log;
  }

  lemma EstimateIsAtomic(db: Db, op: Op, c: nat, card: Card)
    requires StillTrue(db, EstimatingCard(op, c, card))
    ensures IsAtomic(db, EstimatingCard(op, c, card))
  {}

  lemma UndoIsAtomic(db: Db, op: Op, c: nat, i: nat, line: Line, card: Card)
    requires StillTrue(db, UndoingOnCard(op, c, i, line, card))
    ensures IsAtomic(db, UndoingOnCard(op, c, i, line, card))
  {
    assert FirstRead(db, op, UndoingLine(op, c, i, line));
  }

  lemma FulfilIsAtomic(db: Db, op: Op, r: nat, request: Request)
    requires Inv(db) && StillTrue(db, Fulfilling(op, r, request))
    ensures IsAtomic(db, Fulfilling(op, r, request))
  {
    hide CardsOk;
    assert RequestFits(db.cards.rows, db.requests.rows[r]);
  }

  lemma BareWithdrawalIsAtomic(db: Db, op: Op, r: nat, request: Request)
    requires StillTrue(db, Withdrawing(op, r, request)) && request.card.None?
    ensures IsAtomic(db, Withdrawing(op, r, request))
  {
    assert FirstRead(db, op, Withdrawing(op, r, request));
    MarkedIsWithdrawn(db, {r});
    NothingDeleted(MarkAll(db, {r}));
    assert CardsOf(db.requests.rows, {r}) == {};
  }

  lemma WithdrawalIsAtomic(db: Db, op: Op, r: nat, request: Request, c: nat, card: Card)
    requires StillTrue(db, WithdrawingCard(op, r, request, c, card))
    ensures IsAtomic(db, WithdrawingCard(op, r, request, c, card))
  {
    assert FirstRead(db, op, Withdrawing(op, r, request));
    MarkedIsWithdrawn(db, {r});
    assert CardsOf(db.requests.rows, {r}) == {c};
  }

  lemma MarkedIsWithdrawn(db: Db, rs: set<nat>)
    ensures Withdraw(db, rs) == DeleteCards(MarkAll(db, rs), CardsOf(db.requests.rows, rs))
  {}

  /** Cancelling a set of requests of one member together is cancelling them one by one. */
  lemma {:induction false} OneByOne(db: Db, rs: set<nat>, user: nat)
    requires Inv(db) && forall r :: r in rs ==>
      r in db.requests.rows && IsOpenOf(db.requests.rows[r], user) && db.requests.rows[r].card.Some?
    ensures exists ops :: Withdraw(db, rs) == Run(db, ops)
    decreases |rs|
  {
    hide Inv, Withdraw, CancelRequest;
    if r :| r in rs {
      var rest := rs - {r};
      OneByOne(db, rest, user);
      var ops :| Withdraw(db, rest) == Run(db, ops);
      LastWithdrawal(db, rest, r, user);
      RunAppend(db, ops, CancelRequestOp(r, user));
      assert rs == rest + {r};
      assert Withdraw(db, rs) == Run(db, ops + [CancelRequestOp(r, user)]);
    } else {
      NothingWithdrawn(db);
      assert rs == {} && Withdraw(db, rs) == Run(db, []);
    }
  }

  lemma LastWithdrawal(db: Db, rest: set<nat>, r: nat, user: nat)
    requires Inv(db) && r !in rest && r in db.requests.rows && IsOpenOf(db.requests.rows[r], user)
      && db.requests.rows[r].card.Some?
    requires forall q :: q in rest ==> q in db.requests.rows && db.requests.rows[q].status.Open?
    ensures Step(Withdraw(db, rest), CancelRequestOp(r, user)) == Withdraw(db, rest + {r})
  {
    hide Withdraw, CardsOk;
    var mid := Withdraw(db, rest);
    WithdrawKeeps(db, rest);
    WithdrawnRow(db, rest, r);
    WithdrawNext(db, rest, r);
    hide Inv;
    CancelSucceeds(mid, r, user);
    CancelResult(mid, r, user);
  }

  lemma CancelResult(db: Db, r: nat, user: nat)
    requires CancelRequest(db, r, user).Ok?
    ensures CancelRequest(db, r, user) == Ok(Withdraw(db, {r}))
  {}

  lemma WithdrawAllIsRun(db: Db, op: Op, rows: map<nat, Request>)
    requires Inv(db) && StillTrue(db, WithdrawingAll(op, rows))
    ensures Writable(db, WithdrawingAll(op, rows))
    ensures Writes(db, WithdrawingAll(op, rows)) == Withdraw(db, rows.Keys)
    ensures exists ops :: Writes(db, WithdrawingAll(op, rows)) == Run(db, ops)
  {
    hide Inv;
    assert FirstRead(db, op, WithdrawingAll(op, rows)) && op.CancelAllOp?;
    assert forall r :: r in rows ==> OwnRequestRead(db, r, rows[r], op.user);
    MarkedIsWithdrawn(db, rows.Keys);
    assert CardsOf(db.requests.rows, rows.Keys) == CardsOf(rows, rows.Keys);
    OneByOne(db, rows.Keys, op.user);
  }

  /** Every commit is a run of whole operations, nearly always a single one. */
  lemma CommitIsRun(db: Db, t: Txn)
    requires Inv(db) && StillTrue(db, t) && AtCommit(t) && (t.BuyerChecked? ==> Writable(db, t))
    ensures Writable(db, t) && exists ops :: Writes(db, t) == Run(db, ops)
  {
    hide StillTrue, Inv, Perform, Writes, Writable, CommitOp;
    if t.WithdrawingAll? {
      WithdrawAllIsRun(db, t.op, t.rows);
    } else {
      CommitIsAtomic(db, t);
      RunOne(db, CommitOp(t));
      assert Writes(db, t) == Run(db, [CommitOp(t)]);
    }
  }

  lemma RunOne(db: Db, op: Op)
    ensures Run(db, [op]) == Step(db, op)
  {
    hide Step;
    assert [op][1..] == [];
  }

  // ----- What a change to the database leaves to the holder of locks -----

  /** What the holder of lock `l` may rely on across a change of the committed database. */
  ghost predicate Undisturbed(db: Db, after: Db, l: Lock) {
    match l
    case CardRow(c) => c in db.cards.rows ==>
      && c in after.cards.rows && after.cards.rows[c] == db.cards.rows[c]
      && (AwaitsVerification(after.requests.rows, c) ==> AwaitsVerification(db.requests.rows, c))
      && NoNewMeals(db, after, c) && PendingKept(db, after, c)
    case OrderRow(o) => o in db.orders.rows ==> o in after.orders.rows && after.orders.rows[o] == db.orders.rows[o]
    case LineRow(c, i) => c in db.log && i < |db.log[c]| ==>
      c in after.log && i < |after.log[c]| && after.log[c][i] == db.log[c][i]
    case RequestRow(r) => r in db.requests.rows ==>
      r in after.requests.rows && after.requests.rows[r] == db.requests.rows[r]
  }

  ghost predicate NoNewMeals(db: Db, after: Db, c: nat) {
    forall day :: MealKey(c, day) in after.meals ==> MealKey(c, day) in db.meals
  }

  /** No pending sum on the card has grown. */
  ghost predicate PendingKept(db: Db, after: Db, c: nat) {
    forall user: nat ::
      Total(after.orders.rows, PendingOf(user, c), after.orders.next)
        <= Total(db.orders.rows, PendingOf(user, c), db.orders.next)
  }

  lemma FirstReadStaysTrue(db: Db, after: Db, op: Op, t: Txn)
    requires FirstRead(db, op, t) && forall l :: l in Holds(t) ==> Undisturbed(db, after, l)
    ensures FirstRead(after, op, t)
  {
    match op
    case OrderOp(_, _, _, _, _, _) => assert Undisturbed(db, after, CardRow(t.c));
    case PunchOp(_, _) => assert Undisturbed(db, after, CardRow(t.c));
    case EstimateOp(_, _, _) => assert Undisturbed(db, after, CardRow(t.c));
    case _ => RowStaysTrue(db, after, op, t);
  }

  lemma RowStaysTrue(db: Db, after: Db, op: Op, t: Txn)
    requires FirstRead(db, op, t) && (forall l :: l in Holds(t) ==> Undisturbed(db, after, l))
    requires !op.OrderOp? && !op.PunchOp? && !op.EstimateOp?
    ensures FirstRead(after, op, t)
  {
    match op
    case DeliverOp(_, _) => assert Undisturbed(db, after, OrderRow(t.o));
    case CancelOrderOp(_, _, _) => assert Undisturbed(db, after, OrderRow(t.o));
    case UndoOp(_, _, _) => assert Undisturbed(db, after, LineRow(t.c, t.i));
    case FulfilOp(_, _, _, _) => assert Undisturbed(db, after, RequestRow(t.r));
    case RejectOp(_) => assert Undisturbed(db, after, RequestRow(t.r));
    case CancelRequestOp(_, _) => assert Undisturbed(db, after, RequestRow(t.r));
    case CancelAllOp(_) =>
      forall r | r in t.rows ensures OwnRequestRead(after, r, t.rows[r],
          op.user) { assert Undisturbed(db, after, RequestRow(r)); }
    case _ =>
  }

  lemma LaterReadStaysTrue(db: Db, after: Db, t: Txn)
    requires !t.BookingMeals? && !Earlier(t).Begun? && StillTrue(db, t) && forall l :: l in Holds(t) ==>
      Undisturbed(db, after, l)
    ensures Relied(after, Earlier(t), t)
  {
    if t.DeliveringOnCard? || t.DeliveryVerified? || t.PhysicalFound? || t.NoCardFound? {
      DeliveryStaysTrue(db, after, t);
    } else {
      CardStaysTrue(db, after, t);
    }
  }

  lemma DeliveryStaysTrue(db: Db, after: Db, t: Txn)
    requires t.DeliveringOnCard? || t.DeliveryVerified? || t.PhysicalFound? || t.NoCardFound?
    requires StillTrue(db, t) && forall l :: l in Holds(t) ==> Undisturbed(db, after, l)
    ensures Relied(after, Earlier(t), t)
  {
    hide FirstRead;
    match t
    case DeliveringOnCard(_, _, _, c, _) => assert Undisturbed(db, after, CardRow(c));
    case DeliveryVerified(_, _, _, c, _) =>
      assert StillTrue(db, Earlier(t)) && Relied(db, Earlier(Earlier(t)), Earlier(t));
      assert Undisturbed(db, after, CardRow(c));
    case PhysicalFound(_, _, _, c, _) => assert Undisturbed(db, after, CardRow(c));
    case NoCardFound(_, _, _) =>
  }

  lemma CardStaysTrue(db: Db, after: Db, t: Txn)
    requires t.OrderAdmitted? || t.PunchVerified? || t.UndoingOnCard? || t.WithdrawingCard?
    requires StillTrue(db, t) && forall l :: l in Holds(t) ==> Undisturbed(db, after, l)
    ensures Relied(after, Earlier(t), t)
  {
    CardExists(db, t);
    hide FirstRead;
    match t
    case OrderAdmitted(_, c, _) => assert Undisturbed(db, after, CardRow(c));
    case PunchVerified(_, c, _) => assert Undisturbed(db, after, CardRow(c));
    case UndoingOnCard(_, c, _, _, _) => assert Undisturbed(db, after, CardRow(c));
    case WithdrawingCard(_, _, _, c, _) => assert Undisturbed(db, after, CardRow(c));
  }

  lemma CardExists(db: Db, t: Txn)
    requires StillTrue(db, t) && (t.OrderAdmitted? || t.PunchVerified? || t.UndoingOnCard? || t.WithdrawingCard?)
    ensures t.c in db.cards.rows
  {
    if t.OrderAdmitted? || t.PunchVerified? { assert FirstRead(db, t.op, Earlier(t)); }
  }

  lemma MealsStayTrue(db: Db, after: Db, op: Op, read: map<nat, Card>)
    requires MealsRead(db, op, read) && forall l :: l in Holds(BookingMeals(op, read)) ==> Undisturbed(db, after, l)
    ensures MealsRead(after, op, read)
  {
    forall c | c in read ensures MealRead(after, c, read[c], op.day) {
      assert CardRow(c) in Holds(BookingMeals(op, read)) && Undisturbed(db, after, CardRow(c));
      assert MealRead(db, c, read[c], op.day);
    }
  }

  lemma {:induction false} StaysTrue(db: Db, after: Db, t: Txn)
    requires StillTrue(db, t) && forall l :: l in Holds(t) ==> Undisturbed(db, after, l)
    ensures StillTrue(after, t)
    decreases Depth(t)
  {
    hide Undisturbed, FirstRead, MealsRead;
    if t.BookingMeals? {
      MealsStayTrue(db, after, t.op, t.read);
    } else if !t.Begun? {
      if Earlier(t).Begun? { FirstReadStaysTrue(db, after, t.op, t); } else { LaterReadStaysTrue(db, after, t); }
      EarlierHoldsLess(t);
      StaysTrue(db, after, Earlier(t));
    }
  }

  lemma EarlierHoldsLess(t: Txn)
    ensures Holds(Earlier(t)) <= Holds(t)
  {}

  /** Orders that appear on no locked card, or stop being pending, never raise a pending sum. */
  lemma PendingNotRaised(db: Db, after: Db, c: nat)
    requires OrdersLinked(db.cards.rows, db.orders.rows)
    requires db.orders.Valid() && db.orders.next <= after.orders.next <= db.orders.next + 1
    requires after.orders.next == db.orders.next + 1 ==>
      db.orders.next in after.orders.rows && after.orders.rows[db.orders.next].card != Some(c)
    requires forall o :: o in after.orders.rows && o < db.orders.next ==> (o in db.orders.rows &&
      (after.orders.rows[o] == db.orders.rows[o] || !after.orders.rows[o].status.Pending?))
    ensures PendingKept(db, after, c)
  {
    forall user: nat
      ensures Total(after.orders.rows, PendingOf(user, c), after.orders.next)
        <= Total(db.orders.rows, PendingOf(user, c), db.orders.next)
    {
      forall o: nat | o < db.orders.next
        ensures Share(after.orders.rows, PendingOf(user, c), o) <= Share(db.orders.rows, PendingOf(user, c), o)
      {
        if o in db.orders.rows { assert OrderLinked(db.cards.rows, db.orders.rows[o]); }
      }
      TotalMonotone(after.orders.rows, PendingOf(user, c), db.orders.rows, PendingOf(user, c), db.orders.next);
    }
  }

  /** A commit disturbs nothing that another transaction has locked. */
  lemma CommitUndisturbed(db: Db, t: Txn, l: Lock)
    requires Inv(db) && StillTrue(db, t) && AtCommit(t) && Writable(db, t) && l !in Holds(t)
    requires forall c :: c in Drops(t) ==> !OnCard(db, l, c)
    ensures Undisturbed(db, Writes(db, t), l)
  {
    hide Inv, StillTrue, Writes, Undisturbed;
    match t
    case BuyerChecked(op) => PlacingUndisturbed(db, op, l);
    case OrderAdmitted(op, c, card) => OrderUndisturbed(db, t, l);
    case DeliveryVerified(op, o, order, c, card) => OrderUndisturbed(db, t, l);
    case PhysicalFound(op, o, order, c, card) => OrderUndisturbed(db, t, l);
    case NoCardFound(op, o, order) => OrderUndisturbed(db, t, l);
    case CancellingOrder(op, o, order) => OrderUndisturbed(db, t, l);
    case PunchVerified(op, c, card) => BalanceUndisturbed(db, t, l);
    case BookingMeals(op, read) => BalanceUndisturbed(db, t, l);
    case EstimatingCard(op, c, card) => BalanceUndisturbed(db, t, l);
    case UndoingOnCard(op, c, i, line, card) => BalanceUndisturbed(db, t, l);
    case Fulfilling(op, r, request) => FulfilUndisturbed(db, op, r, request, l);
    case Withdrawing(op, r, request) => WithdrawingUndisturbed(db, t, {r}, l);
    case WithdrawingCard(op, r, request, c, card) => WithdrawingUndisturbed(db, t, {r}, l);
    case WithdrawingAll(op, rows) => WithdrawingUndisturbed(db, t, rows.Keys, l);
  }

  /** What a lock needs of the tables of a sound database. */
  lemma TablesOfInv(db: Db)
    requires Inv(db)
    ensures db.cards.Valid() && db.requests.Valid() && db.orders.Valid() && OrdersLinked(db.cards.rows, db.orders.rows)
    ensures OneRequestPerCard(db.requests.rows) && db.log.Keys == db.cards.rows.Keys
  {
    hide CardsOk;
  }

  lemma PlacingUndisturbed(db: Db, op: Op, l: Lock)
    requires Inv(db) && StillTrue(db, BuyerChecked(op)) && Writable(db, BuyerChecked(op))
    ensures Undisturbed(db, Writes(db, BuyerChecked(op)), l)
  {
    hide Inv;
    TablesOfInv(db);
    var after := Writes(db, BuyerChecked(op));
    if l.CardRow? && l.c in db.cards.rows {
      AwaitsPut(db.requests.rows, db.requests.next, after.requests.rows[db.requests.next], l.c);
    }
  }

  /** Commits that write an order, and perhaps the card it is settled on. */
  lemma OrderUndisturbed(db: Db, t: Txn, l: Lock)
    requires Inv(db) && StillTrue(db, t) && Writable(db, t) && l !in Holds(t)
    requires t.OrderAdmitted? || t.DeliveryVerified? || t.PhysicalFound? || t.NoCardFound? || t.CancellingOrder?
    ensures Undisturbed(db, Writes(db, t), l)
  {
    hide Inv, StillTrue;
    TablesOfInv(db);
    if l.CardRow? { PendingNotRaised(db, Writes(db, t), l.c); }
  }

  /** Commits that write balances and log lines. */
  lemma BalanceUndisturbed(db: Db, t: Txn, l: Lock)
    requires Inv(db) && StillTrue(db, t) && Writable(db, t) && l !in Holds(t)
    requires t.PunchVerified? || t.BookingMeals? || t.EstimatingCard? || t.UndoingOnCard?
    ensures Undisturbed(db, Writes(db, t), l)
  {
    hide Inv, StillTrue;
    TablesOfInv(db);
    if t.BookingMeals? {
      MealsUndisturbed(db, t.op, t.read, l);
    } else {
      assert Writes(db, t).orders == db.orders && Writes(db, t).requests == db.requests;
    }
  }

  lemma MealsUndisturbed(db: Db, op: Op, read: map<nat, Card>, l: Lock)
    requires Writable(db, BookingMeals(op, read)) && l !in Holds(BookingMeals(op, read))
    ensures Undisturbed(db, Writes(db, BookingMeals(op, read)), l)
  {
    var after := Writes(db, BookingMeals(op, read));
    assert after.orders == db.orders && after.requests == db.requests;
    assert forall c :: c in read ==> CardRow(c) in Holds(BookingMeals(op, read));
  }

  lemma FulfilUndisturbed(db: Db, op: Op, r: nat, request: Request, l: Lock)
    requires Inv(db) && StillTrue(db, Fulfilling(op, r, request)) && Writable(db, Fulfilling(op, r, request))
      && l != RequestRow(r)
    ensures Undisturbed(db, Writes(db, Fulfilling(op, r, request)), l)
  {
    hide Inv;
    TablesOfInv(db);
    var after := Writes(db, Fulfilling(op, r, request));
    forall q | q in after.requests.rows && after.requests.rows[q].status.Open?
      ensures q in db.requests.rows && db.requests.rows[q] == after.requests.rows[q]
    {}
  }

  /** Commits that cancel requests and delete their cards. */
  lemma WithdrawingUndisturbed(db: Db, t: Txn, rs: set<nat>, l: Lock)
    requires Inv(db) && StillTrue(db, t) && AtCommit(t) && Writable(db, t) && l !in Holds(t)
    requires (t.Withdrawing? && rs == {t.r}) || (t.WithdrawingCard? && rs == {t.r}) || (t.WithdrawingAll?
        && rs == t.rows.Keys)
    requires forall c :: c in Drops(t) ==> !OnCard(db, l, c)
    ensures Undisturbed(db, Writes(db, t), l)
  {
    hide Inv, Undisturbed, Withdraw;
    WritesWithdraw(db, t, rs);
    WithdrawUndisturbed(db, rs, l);
  }

  lemma WritesWithdraw(db: Db, t: Txn, rs: set<nat>)
    requires Inv(db) && StillTrue(db, t) && AtCommit(t) && Writable(db, t)
    requires (t.Withdrawing? && rs == {t.r}) || (t.WithdrawingCard? && rs == {t.r}) || (t.WithdrawingAll?
        && rs == t.rows.Keys)
    ensures Writes(db, t) == Withdraw(db, rs) && CardsOf(db.requests.rows, rs) == Drops(t)
    ensures forall r :: r in rs ==> r in db.requests.rows && RequestRow(r) in Holds(t)
  {
    hide Inv;
    MarkedIsWithdrawn(db, rs);
    match t
    case Withdrawing(op, r, request) =>
      assert FirstRead(db, op, t);
      NothingDeleted(MarkAll(db, rs));
      assert CardsOf(db.requests.rows, rs) == {};
    case WithdrawingCard(op, r, request, c, card) =>
      assert FirstRead(db, op, Withdrawing(op, r, request));
      assert CardsOf(db.requests.rows, rs) == {c};
    case WithdrawingAll(op, rows) =>
      assert FirstRead(db, op, t);
      assert forall q :: q in rows ==> OwnRequestRead(db, q, rows[q], op.user);
      assert CardsOf(db.requests.rows, rs) == CardsOf(rows, rs);
  }

  lemma WithdrawUndisturbed(db: Db, rs: set<nat>, l: Lock)
    requires Inv(db) && forall r :: r in rs ==> r in db.requests.rows && l != RequestRow(r)
    requires forall c :: c in CardsOf(db.requests.rows, rs) ==> !OnCard(db, l, c)
    ensures Undisturbed(db, Withdraw(db, rs), l)
  {
    hide Inv;
    TablesOfInv(db);
    var after := Withdraw(db, rs);
    if l.CardRow? {
      PendingNotRaised(db, after, l.c);
      WithdrawAwaits(db, rs, l.c);
    }
    if l.RequestRow? && l.r in db.requests.rows { WithdrawnRow(db, rs, l.r); }
  }

  /** Withdrawing requests makes no card await verification. */
  lemma WithdrawAwaits(db: Db, rs: set<nat>, c: nat)
    ensures AwaitsVerification(Withdraw(db, rs).requests.rows, c) ==> AwaitsVerification(db.requests.rows, c)
  {
    var after := Withdraw(db, rs).requests.rows;
    if AwaitsVerification(after, c) {
      var q :| q in after && after[q].status.Open? && after[q].card == Some(c);
      assert db.requests.rows[q].status.Open? && db.requests.rows[q].card == Some(c);
    }
  }

  lemma InsertUndisturbed(db: Db, op: Op, l: Lock)
    requires Inv(db) && SingleStatement(op)
    ensures Undisturbed(db, Step(db, op), l)
  {
    hide Inv;
    TablesOfInv(db);
    if l.CardRow? && op.OrderOp? { PendingNotRaised(db, Step(db, op), l.c); }
  }

  // ----- The system invariant -----

  ghost predicate SysInv(s: Sys) {
    && Inv(s.db)
    && (forall t :: t in s.txns ==> StillTrue(s.db, s.txns[t]))
    && (forall t, u :: t in s.txns && u in s.txns && t != u ==> Holds(s.txns[t]) !! Holds(s.txns[u]))
  }

  /** One step of the system commits a run of whole operations: none, one, or for cancel-all several. */
  ghost predicate SomeOperations(db: Db, after: Db) {
    exists ops :: after == Run(db, ops)
  }

  lemma NextKeeps(s: Sys, a: Action, s': Sys)
    requires SysInv(s) && Next(s, a, s')
    ensures SysInv(s') && SomeOperations(s.db, s'.db)
  {
    hide Inv, StillTrue, Advances;
    assert Run(s.db, []) == s.db;
    match a
    case Begin(t, op) => assert StillTrue(s.db, Begun(op)) by { BegunTrue(s.db, op); }
    case Advance(t, u) =>
      AdvanceStaysTrue(s.db, s.txns[t], u);
    case Commit(t) => CommitKeeps(s, t, s');
    case Abort(t) =>
    case Insert(op) => InsertKeeps(s, op, s');
  }

  lemma InsertKeeps(s: Sys, op: Op, s': Sys)
    requires SysInv(s) && SingleStatement(op) && s' == s.(db := Step(s.db, op))
    ensures SysInv(s') && SomeOperations(s.db, s'.db)
  {
    hide Inv, StillTrue, Step, Undisturbed;
    StepKeeps(s.db, op);
    RunOne(s.db, op);
    forall u | u in s'.txns ensures StillTrue(s'.db, s'.txns[u]) {
      forall l | l in Holds(s.txns[u]) ensures Undisturbed(s.db, s'.db, l) { InsertUndisturbed(s.db, op, l); }
      StaysTrue(s.db, s'.db, s.txns[u]);
    }
  }

  lemma BegunTrue(db: Db, op: Op)
    ensures StillTrue(db, Begun(op))
  {}

  lemma CommitKeeps(s: Sys, t: nat, s': Sys)
    requires SysInv(s) && Next(s, Commit(t), s')
    ensures SysInv(s') && SomeOperations(s.db, s'.db)
  {
    hide Inv, StillTrue, Advances, Undisturbed, Writes, Writable, Run;
    var txn := s.txns[t];
    CommitIsRun(s.db, txn);
    var ops :| Writes(s.db, txn) == Run(s.db, ops);
    RunKeeps(s.db, ops);
    forall u | u in s'.txns ensures StillTrue(s'.db, s'.txns[u]) {
      assert u != t && Holds(s.txns[u]) !! Holds(txn);
      forall l | l in Holds(s.txns[u]) ensures Undisturbed(s.db, s'.db, l) { CommitUndisturbed(s.db, txn, l); }
      StaysTrue(s.db, s'.db, s.txns[u]);
    }
  }

  // ----- Every interleaving -----

  ghost predicate Trace(states: seq<Sys>, actions: seq<Action>) {
    && |states| == |actions| + 1
    && forall i :: 0 <= i < |actions| ==> Next(states[i], actions[i], states[i + 1])
  }

  /** Whatever the interleaving, the committed databases are those of a run of whole operations. */
  lemma {:induction false} Serialises(states: seq<Sys>, actions: seq<Action>)
    requires Trace(states, actions) && SysInv(states[0])
    ensures SysInv(states[|actions|]) && SomeOperations(states[0].db, states[|actions|].db)
    decreases |actions|
  {
    hide SysInv, Next, Run;
    var n := |actions|;
    if n == 0 {
      RunNone(states[0].db);
    } else {
      Serialises(states[..n], actions[..n - 1]);
      var ops :| states[n - 1].db == Run(states[0].db, ops);
      NextKeeps(states[n - 1], actions[n - 1], states[n]);
      var more :| states[n].db == Run(states[n - 1].db, more);
      RunConcat(states[0].db, ops, more);
      assert states[n].db == Run(states[0].db, ops + more);
    }
  }

  lemma RunNone(db: Db)
    ensures Run(db, []) == db && SomeOperations(db, db)
  {
    assert Run(db, []) == db;
  }

  lemma {:induction false} RunConcat(db: Db, ops: seq<Op>, more: seq<Op>)
    ensures Run(db, ops + more) == Run(Run(db, ops), more)
    decreases |ops|
  {
    hide Step;
    if ops == [] {
      assert ops + more == more;
    } else {
      assert (ops + more)[1..] == ops[1..] + more;
      RunConcat(Step(db, ops[0]), ops[1..], more);
    }
  }

  lemma RunAppend(db: Db, ops: seq<Op>, op: Op)
    ensures Run(db, ops + [op]) == Step(Run(db, ops), op)
  {
    RunConcat(db, ops, [op]);
    RunOne(Run(db, ops), op);
  }

  /** Under every interleaving, open orders on an online card stay within its balance plus its live manual punches. */
  lemma ReservationBoundInterleaved(states: seq<Sys>, actions: seq<Action>, i: nat, c: nat)
    requires Trace(states, actions) && i < |states| && Initial(states[0].db) && states[0].txns == map[]
    requires c in states[i].db.cards.rows && states[i].db.cards.rows[c].source == Online
    ensures c in states[i].db.log
    ensures Total(states[i].db.orders.rows, PendingOn(c), states[i].db.orders.next)
      <= states[i].db.cards.rows[c].knipjes + LivePunches(states[i].db.log[c])
  {
    Reachable(states[0].db, []);
    hide Inv;
    assert Trace(states[..i + 1], actions[..i]);
    Serialises(states[..i + 1], actions[..i]);
    var ops :| states[i].db == Run(states[0].db, ops);
    ReservationBound(states[0].db, ops, c);
  }

  // ----- What unlocked reads can miss -----

  /** The writes of a sale are the sale exactly when its checks would still pass. */
  lemma SaleAsChecked(db: Db, buyer: nat, seller: nat, kind: Kind, price: int, month: int)
    requires PlaceSale(db, buyer, seller, kind, price, month).Ok?
    ensures PlaceSale(db, buyer, seller, kind, price, month) == SellPhysical(db, buyer, seller, kind, price, month)
      <==> BuyerError(db, buyer, kind).None?
  {}

  /** The writes of a request are the request exactly when the user may still have the kind: the unique index does the
      rest. */
  lemma RequestAsChecked(db: Db, user: nat, kind: Kind)
    requires PlaceRequest(db, user, kind).Ok?
    ensures PlaceRequest(db, user, kind) == RequestCard(db, user, kind) <==>
      (kind == Tosti || db.users.rows[user].matroos)
  {}

  /** A physical delivery is the delivery exactly when a search at its commit would come up with the same card, or again
      with none. */
  lemma SettledAsSearched(db: Db, o: nat, found: Option<nat>, who: nat)
    requires DeliverOn(db, o, found, who).Ok? && db.orders.rows[o].card.None?
    ensures DeliverOn(db, o, found, who) == Deliver(db, o, who)
      <==> found == FindPhysicalTostiCard(db.cards, db.orders.rows[o].user)
  {
    var searched := FindPhysicalTostiCard(db.cards, db.orders.rows[o].user);
    SettledRow(db, o, found, who);
    if DeliverOn(db, o, searched, who).Ok? { SettledRow(db, o, searched, who); }
  }

  lemma SettledRow(db: Db, o: nat, found: Option<nat>, who: nat)
    requires DeliverOn(db, o, found, who).Ok? && db.orders.rows[o].card.None?
    ensures DeliverOn(db, o, found, who).value.orders.rows[o].card == found
  {}

  const BUYER := SaveUserOp(None, User(Some("a"), false, false, false))
  const COUNTER_SALE := SellOp(1, 1, Tosti, 1500, 24320)
  const ONLINE_REQUEST := RequestOp(1, Tosti)

  /** The system while sale and request are under way, with the tables committed so far. */
  function SaleStates(member: Db, requested: Db, sold: Db): seq<Sys> {
    var sale, request := BuyerChecked(COUNTER_SALE), BuyerChecked(ONLINE_REQUEST);
    [Sys(EMPTY, map[]), Sys(member, map[]), Sys(member, map[1 := Begun(COUNTER_SALE)]), Sys(member, map[1 := sale]),
     Sys(member, map[1 := sale, 2 := Begun(ONLINE_REQUEST)]), Sys(member, map[1 := sale, 2 := request]),
     Sys(requested, map[1 := sale]), Sys(sold, map[])]
  }

  const SALE_ACTIONS := [Insert(BUYER), Begin(1, COUNTER_SALE), Advance(1, BuyerChecked(COUNTER_SALE)),
      Begin(2, ONLINE_REQUEST),
    Advance(2, BuyerChecked(ONLINE_REQUEST)), Commit(2), Commit(1)]

  /** A sale checks its buyer, the buyer requests a card of the same kind, both commit. */
  lemma SaleBesideRequest() returns (states: seq<Sys>, actions: seq<Action>)
    ensures Trace(states, actions) && Initial(states[0].db) && states[0].txns == map[]
    ensures var requests := states[|actions|].db.requests.rows;
      && 1 in requests && 2 in requests && requests[1].status.Open? && requests[2].status.Fulfilled?
      && requests[1].user == requests[2].user && requests[1].kind == requests[2].kind
  {
    hide Step, Writes, Writable, Next, Initial, Advances;
    Member();
    var member := Step(EMPTY, BUYER);
    Requested(member);
    var requested := Writes(member, BuyerChecked(ONLINE_REQUEST));
    var sold := Writes(requested, BuyerChecked(COUNTER_SALE));
    states, actions := SaleStates(member, requested, sold), SALE_ACTIONS;
    ChecksFirst(requested, sold);
    CommitsLast(requested, sold);
  }

  lemma ChecksFirst(requested: Db, sold: Db)
    ensures var states := SaleStates(Step(EMPTY, BUYER), requested, sold);
      forall i :: 0 <= i < 5 ==> Next(states[i], SALE_ACTIONS[i], states[i + 1])
  {
    hide Step, Advances, AtCommit;
    Member();
    var states := SaleStates(Step(EMPTY, BUYER), requested, sold);
    assert Next(states[0], SALE_ACTIONS[0], states[1]);
    assert Next(states[1], SALE_ACTIONS[1], states[2]);
    assert Next(states[2], SALE_ACTIONS[2], states[3]);
    assert Next(states[3], SALE_ACTIONS[3], states[4]);
    assert Next(states[4], SALE_ACTIONS[4], states[5]);
  }

  lemma CommitsLast(requested: Db, sold: Db)
    requires var member := Step(EMPTY, BUYER);
      && Writable(member, BuyerChecked(ONLINE_REQUEST)) && requested == Writes(member, BuyerChecked(ONLINE_REQUEST))
      && Writable(requested, BuyerChecked(COUNTER_SALE)) && sold == Writes(requested, BuyerChecked(COUNTER_SALE))
    ensures var states := SaleStates(Step(EMPTY, BUYER), requested, sold);
      forall i :: 5 <= i < 7 ==> Next(states[i], SALE_ACTIONS[i], states[i + 1])
  {
    hide Step, Writes, Writable;
    var states := SaleStates(Step(EMPTY, BUYER), requested, sold);
    assert states[5].txns - {2} == states[6].txns && states[6].txns - {1} == states[7].txns;
    assert Next(states[5], SALE_ACTIONS[5], states[6]);
    assert Next(states[6], SALE_ACTIONS[6], states[7]);
  }

  lemma Member()
    ensures Initial(EMPTY) && 1 in Step(EMPTY, BUYER).users.rows && Step(EMPTY, BUYER).requests == EMPTY.requests
    ensures Advances(Step(EMPTY, BUYER), Begun(COUNTER_SALE), BuyerChecked(COUNTER_SALE))
    ensures Advances(Step(EMPTY, BUYER), Begun(ONLINE_REQUEST), BuyerChecked(ONLINE_REQUEST))
    ensures AtCommit(BuyerChecked(COUNTER_SALE)) && AtCommit(BuyerChecked(ONLINE_REQUEST))
    ensures Writable(Step(EMPTY, BUYER), BuyerChecked(ONLINE_REQUEST))
  {
    var member := Step(EMPTY, BUYER);
    assert member.users.rows == map[1 := BUYER.row];
    assert !HasOpenRequest(member.requests.rows, 1, Tosti);
  }

  lemma Requested(member: Db)
    requires 1 in member.users.rows && member.requests == EMPTY.requests
      && Writable(member, BuyerChecked(ONLINE_REQUEST))
    ensures var db := Writes(member, BuyerChecked(ONLINE_REQUEST));
      && Writable(db, BuyerChecked(COUNTER_SALE))
      && var requests := Writes(db, BuyerChecked(COUNTER_SALE)).requests.rows;
         && requests.Keys == {1, 2} && requests[1].status.Open? && requests[2].status.Fulfilled?
         && requests[1].user == 1 && requests[2].user == 1 && requests[1].kind == Tosti && requests[2].kind == Tosti
  {}
}
