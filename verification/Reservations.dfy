/** When the open orders of an online card are within its balance: after which steps, over which runs, and what that
    decides about delivering them. */
module Reservations {
  import opened Prelude
  import opened Journal
  import opened Ledger
  import opened CardBook
  import opened Invariant
  import opened Preservation
  import opened Lifecycle
  import opened Runs

  function OpenQuantity(db: Db, c: nat): int { Total(db.orders.rows, PendingOn(c), db.orders.next) }

  predicate IsOnlineCard(db: Db, c: nat) { c in db.cards.rows && db.cards.rows[c].source == Online }

  /** What the balance leaves free beside the open orders; negative when they claim more than there is. */
  function Slack(db: Db, c: nat): int
    requires c in db.cards.rows
  {
    db.cards.rows[c].knipjes - OpenQuantity(db, c)
  }

  /** Pending quantity <= remaining. */
  predicate Covered(db: Db, c: nat) { IsOnlineCard(db, c) && Slack(db, c) >= 0 }

  /** A punch that goes through while the open orders claim the whole balance. */
  predicate Overdraws(db: Db, op: Op) {
    op.PunchOp? && Perform(db, op).Some? && op.card in db.cards.rows && Slack(db, op.card) == 0
  }

  // ----- How one operation moves the slack -----

  lemma TablesFit(db: Db)
    requires Inv(db)
    ensures db.cards.Valid() && db.orders.Valid() && OrdersLinked(db.cards.rows, db.orders.rows)
    ensures forall o :: o in db.orders.rows ==> db.orders.rows[o].quantity > 0
  {
    assert forall o :: o in db.orders.rows ==> OrderLinked(db.cards.rows, db.orders.rows[o]);
    hide CardsOk, RequestsOk;
  }

  lemma SameSlack(db: Db, after: Db, c: nat)
    requires c in db.cards.rows && c in after.cards.rows && after.cards.rows[c].knipjes == db.cards.rows[c].knipjes
    requires after.orders.next == db.orders.next
    requires forall o: nat :: o < db.orders.next ==>
      Share(after.orders.rows, PendingOn(c), o) == Share(db.orders.rows, PendingOn(c), o)
    ensures Slack(after, c) == Slack(db, c)
  {
    TotalCongruent(db.orders.rows, PendingOn(c), after.orders.rows, PendingOn(c), db.orders.next);
  }

  lemma WithdrawSlack(db: Db, rs: set<nat>, c: nat)
    requires c in db.cards.rows && c in Withdraw(db, rs).cards.rows
    ensures Slack(Withdraw(db, rs), c) == Slack(db, c)
    ensures Withdraw(db, rs).cards.rows[c] == db.cards.rows[c]
  {
    SameSlack(db, Withdraw(db, rs), c);
  }

  lemma RenameSlack(db: Db, src: nat, dst: nat, c: nat)
    requires c in db.cards.rows
    ensures c in Renamed(db, src, dst).cards.rows && Slack(Renamed(db, src, dst), c) == Slack(db, c)
    ensures Renamed(db, src, dst).cards.rows[c].source == db.cards.rows[c].source
  {
    SameSlack(db, Renamed(db, src, dst), c);
  }

  lemma AccountsSlack(db: Db, op: Op, c: nat)
    requires Inv(db) && Perform(db, op).Some? && (op.MergeOp? || op.DeleteOp?)
    requires c in db.cards.rows && c in Step(db, op).cards.rows
    ensures Slack(Step(db, op), c) >= Slack(db, c)
  {
    hide CardsOk;
    match op
    case MergeOp(src, dst, actor) =>
      MergeOutcome(db, src, dst, actor);
      RenameSlack(db, src, dst, c);
      assert Step(db, op).cards == Renamed(db, src, dst).cards && Step(db, op).orders == Renamed(db, src, dst).orders;
    case DeleteOp(user, actor) =>
      DeleteOutcome(db, user, actor);
      ClosedSlack(db, user, actor, c);
      var (closed, placeholder) := Closed(db, user, actor);
      hide Inv, Closed, DeleteUser;
      assert Step(db, op).cards == Renamed(closed, user, placeholder).cards;
      assert Step(db, op).orders == Renamed(closed, user, placeholder).orders;
      assert c in closed.cards.rows;
      RenameSlack(closed, user, placeholder, c);
  }

  lemma ClosedSlack(db: Db, user: nat, actor: nat, c: nat)
    requires Inv(db) && c in db.cards.rows && c in Closed(db, user, actor).0.cards.rows
    ensures Slack(Closed(db, user, actor).0, c) >= Slack(db, c)
  {
    hide Inv;
    TablesFit(db);
    var withdrawn := Withdraw(db, OpenOf(db.requests.rows, user));
    WithdrawSlack(db, OpenOf(db.requests.rows, user), c);
    CancelledSlack(withdrawn, user, actor, c);
    hide Withdraw, Slack;
    var closed := CancelOrdersOf(withdrawn, user, actor);
    assert Closed(db, user, actor).0.cards == closed.cards && Closed(db, user, actor).0.orders == closed.orders;
    SlackReads(closed, Closed(db, user, actor).0, c);
  }

  lemma SlackReads(db: Db, after: Db, c: nat)
    requires db.cards == after.cards && db.orders == after.orders && c in db.cards.rows
    ensures Slack(after, c) == Slack(db, c)
  {}

  lemma CancelledSlack(db: Db, user: nat, actor: nat, c: nat)
    requires c in db.cards.rows && forall o :: o in db.orders.rows ==> db.orders.rows[o].quantity > 0
    ensures c in CancelOrdersOf(db, user, actor).cards.rows && Slack(CancelOrdersOf(db, user, actor), c) >= Slack(db, c)
  {
    TotalMonotone(CancelOrdersOf(db, user, actor).orders.rows, PendingOn(c), db.orders.rows, PendingOn(c),
        db.orders.next);
  }

  lemma WithdrawalSlack(db: Db, op: Op, c: nat)
    requires Perform(db, op).Some? && (op.RejectOp? || op.CancelRequestOp? || op.CancelAllOp?)
    requires c in db.cards.rows && c in Step(db, op).cards.rows
    ensures Slack(Step(db, op), c) == Slack(db, c)
  {
    hide Withdraw, Slack;
    match op
    case RejectOp(r) => WithdrawSlack(db, {r}, c);
    case CancelRequestOp(r, user) => WithdrawSlack(db, {r}, c);
    case CancelAllOp(user) => WithdrawSlack(db, OpenOf(db.requests.rows, user), c);
  }

  /** Operations that add a card or a request, or change an account, leave every card and all orders alone. */
  predicate AddsRows(op: Op) {
    op.RequestOp? || op.SellOp? || op.FulfilOp? || op.PlaceRequestOp? || op.PlaceSaleOp? || op.SaveUserOp?
  }

  ghost predicate OnlyAdded(db: Db, after: Db) {
    after.orders == db.orders && forall c :: c in db.cards.rows ==>
      c in after.cards.rows && after.cards.rows[c] == db.cards.rows[c]
  }

  lemma AddedRows(db: Db, op: Op)
    requires Inv(db) && Perform(db, op).Some? && AddsRows(op)
    ensures OnlyAdded(db, Step(db, op))
  {
    hide Inv, BuyerError, PlaceRequest, PlaceSale, Fulfil, SaveUser, OnlyAdded;
    TablesFit(db);
    match op
    case RequestOp(user, kind) => PlacedRequest(db, user, kind);
    case PlaceRequestOp(user, kind) => PlacedRequest(db, user, kind);
    case SellOp(buyer, seller, kind, price, month) => PlacedSale(db, buyer, seller, kind, price, month);
    case PlaceSaleOp(buyer, seller, kind, price, month) => PlacedSale(db, buyer, seller, kind, price, month);
    case FulfilOp(r, admin, price, month) => FulfilledRow(db, r, admin, price, month);
    case SaveUserOp(account, row) => SavedUser(db, account, row);
  }

  lemma PlacedRequest(db: Db, user: nat, kind: Kind)
    requires db.cards.Valid() && PlaceRequest(db, user, kind).Ok?
    ensures OnlyAdded(db, PlaceRequest(db, user, kind).value)
  {}

  lemma PlacedSale(db: Db, buyer: nat, seller: nat, kind: Kind, price: int, month: int)
    requires db.cards.Valid() && PlaceSale(db, buyer, seller, kind, price, month).Ok?
    ensures OnlyAdded(db, PlaceSale(db, buyer, seller, kind, price, month).value)
  {}

  lemma FulfilledRow(db: Db, r: nat, admin: nat, price: int, month: int)
    requires db.cards.Valid() && Fulfil(db, r, admin, price, month).Ok?
    ensures OnlyAdded(db, Fulfil(db, r, admin, price, month).value)
  {}

  lemma SavedUser(db: Db, account: Option<nat>, row: User)
    requires SaveUser(db, account, row).Ok?
    ensures OnlyAdded(db, SaveUser(db, account, row).value)
  {}

  /** An admitted order leaves a slack; orders elsewhere do not matter. */
  lemma OrderSlack(db: Db, op: Op, c: nat)
    requires Inv(db) && op.OrderOp? && Perform(db, op).Some? && c in db.cards.rows
    ensures c in Step(db, op).cards.rows
    ensures Slack(Step(db, op), c) >= 0 || Slack(Step(db, op), c) == Slack(db, c)
  {
    hide Inv;
    TablesFit(db);
    var after := Step(db, op);
    var n := db.orders.next;
    var row := after.orders.rows[n];
    assert after.orders == db.orders.Insert(row) && after.cards == db.cards;
    hide PendingOf;
    if row.card == Some(c) {
      assert OpenQuantity(db, c) + row.quantity <= db.cards.rows[c].knipjes by { PendingOfAll(db, c); }
    }
    hide Perform;
    TotalCongruent(db.orders.rows, PendingOn(c), after.orders.rows, PendingOn(c), n);
  }

  /** All open orders on a card are its owner's. */
  lemma PendingOfAll(db: Db, c: nat)
    requires Inv(db) && c in db.cards.rows
    ensures Total(db.orders.rows, PendingOf(db.cards.rows[c].owner, c), db.orders.next) == OpenQuantity(db, c)
  {
    hide Inv;
    forall o: nat | o < db.orders.next
      ensures Share(db.orders.rows, PendingOf(db.cards.rows[c].owner, c), o) == Share(db.orders.rows, PendingOn(c), o)
    {
      if o in db.orders.rows && db.orders.rows[o].card == Some(c) { OrderOnCard(db, c, o); }
    }
    TotalCongruent(db.orders.rows, PendingOf(db.cards.rows[c].owner, c), db.orders.rows, PendingOn(c), db.orders.next);
  }

  lemma OrderOnCard(db: Db, c: nat, o: nat)
    requires Inv(db) && c in db.cards.rows && o in db.orders.rows && db.orders.rows[o].card == Some(c)
    ensures db.orders.rows[o].user == db.cards.rows[c].owner && db.cards.rows[c].kind == Tosti
  {
    hide CardOk;
    var v := View(db, c);
    assert CardOk(v) && o in v.orders;
    CardOrderFits(v, o);
  }

  lemma CancelSlack(db: Db, op: Op, c: nat)
    requires Inv(db) && op.CancelOrderOp? && Perform(db, op).Some? && c in db.cards.rows
    ensures c in Step(db, op).cards.rows && Slack(Step(db, op), c) >= Slack(db, c)
  {
    hide Inv;
    TablesFit(db);
    TotalMonotone(Step(db, op).orders.rows, PendingOn(c), db.orders.rows, PendingOn(c), db.orders.next);
  }

  /** A delivery takes from an online card what the order had reserved on it. */
  lemma DeliverSlack(db: Db, o: nat, found: Option<nat>, who: nat, c: nat)
    requires Inv(db) && IsOnlineCard(db, c) && DeliverOn(db, o, found, who).Ok?
    ensures var after := DeliverOn(db, o, found, who).value; IsOnlineCard(after, c) && Slack(after, c) == Slack(db, c)
  {
    hide Inv;
    TablesFit(db);
    var after := DeliverOn(db, o, found, who).value;
    var row := after.orders.rows[o];
    assert after.orders == db.orders.Put(o, row) && row.status.Delivered? && o < db.orders.next;
    assert IsOnlineCard(after, c);
    assert after.cards.rows[c].knipjes == db.cards.rows[c].knipjes - Share(db.orders.rows, PendingOn(c), o);
    hide DeliverOn;
    TotalChange(db.orders.rows, PendingOn(c), after.orders.rows, PendingOn(c), db.orders.next, o);
  }

  lemma MealsSlack(db: Db, op: Op, c: nat)
    requires Inv(db) && op.MealsOp? && Perform(db, op).Some? && IsOnlineCard(db, c)
    ensures c in Step(db, op).cards.rows
    ensures Slack(Step(db, op), c) >= 0 || Slack(Step(db, op), c) == Slack(db, c)
  {
    hide Inv, OpenQuantity;
    var after := Step(db, op);
    FirstRefusalNone(db, op.cards, op.day);
    assert after.orders == db.orders;
    SameQuantity(db, after, c);
    if c in Selected(op.cards) {
      assert MealError(db, c, op.day).None?;
      NoOrdersOnMealCards(db, c);
    }
  }

  lemma SameQuantity(db: Db, after: Db, c: nat)
    requires after.orders == db.orders
    ensures OpenQuantity(after, c) == OpenQuantity(db, c)
  {}

  lemma NoOrdersOnMealCards(db: Db, c: nat)
    requires Inv(db) && c in db.cards.rows && db.cards.rows[c].kind == Avondeten
    ensures OpenQuantity(db, c) == 0
  {
    hide Inv;
    forall o: nat | o < db.orders.next ensures Share(db.orders.rows, PendingOn(c), o) == 0 {
      if o in db.orders.rows && db.orders.rows[o].card == Some(c) { OrderOnCard(db, c, o); }
    }
    TotalZero(db.orders.rows, PendingOn(c), db.orders.next);
  }

  /** Undo gives back: on an online card no undoable line is positive. */
  lemma UndoSlack(db: Db, op: Op, c: nat)
    requires Inv(db) && op.UndoOp? && Perform(db, op).Some? && IsOnlineCard(db, c)
    ensures c in Step(db, op).cards.rows && Slack(Step(db, op), c) >= Slack(db, c)
  {
    hide Inv, OpenQuantity;
    var after := Step(db, op);
    if op.card == c { UndoneLine(db, c, op.line); }
    SameQuantity(db, after, c);
  }

  lemma UndoneLine(db: Db, c: nat, i: nat)
    requires Inv(db) && IsOnlineCard(db, c) && c in db.log && i < |db.log[c]| && Undoable(db.log[c][i].reason)
    ensures db.log[c][i].delta <= 0
  {
    hide CardOk;
    UndoGivesBack(View(db, c), i);
  }

  lemma UndoGivesBack(v: CardView, i: nat)
    requires CardOk(v) && v.IsOnline() && i < |v.lines| && Undoable(v.lines[i].reason)
    ensures v.lines[i].delta <= 0
  {
    assert FitsCard(v.card.kind, v.card.source, v.lines[i]);
  }

  // ----- One step -----

  /** The slack of an online card becomes negative only by a punch. */
  lemma StepSlack(db: Db, op: Op, c: nat)
    requires Inv(db) && IsOnlineCard(db, c) && c in Step(db, op).cards.rows && !(op.PunchOp? && op.card == c)
    ensures Slack(Step(db, op), c) >= 0 || Slack(Step(db, op), c) >= Slack(db, c)
  {
    hide Inv, Perform, Slack;
    if Perform(db, op).Some? {
      if op.RejectOp? || op.CancelRequestOp? || op.CancelAllOp? {
        WithdrawalSlack(db, op, c);
      } else if op.MergeOp? || op.DeleteOp? {
        AccountsSlack(db, op, c);
      } else if AddsRows(op) {
        AddedRows(db, op);
        SameSlack(db, Step(db, op), c);
      } else if op.DeliverOp? || op.SettleOp? {
        DeliveryStep(db, op, c);
      } else {
        match op
        case OrderOp(_, _, _, _, _, _) => OrderSlack(db, op, c);
        case CancelOrderOp(_, _, _) => CancelSlack(db, op, c);
        case MealsOp(_, _, _) => MealsSlack(db, op, c);
        case UndoOp(_, _, _) => UndoSlack(db, op, c);
        case _ => OtherCard(db, op, c);
      }
    }
  }

  lemma DeliveryStep(db: Db, op: Op, c: nat)
    requires Inv(db) && IsOnlineCard(db, c) && Perform(db, op).Some? && (op.DeliverOp? || op.SettleOp?)
    ensures c in Step(db, op).cards.rows && Slack(Step(db, op), c) == Slack(db, c)
  {
    hide Inv, DeliverOn, Slack;
    match op
    case DeliverOp(o, who) => DeliverSlack(db, o, FindPhysicalTostiCard(db.cards, db.orders.rows[o].user), who, c);
    case SettleOp(o, found, who) => DeliverSlack(db, o, found, who, c);
  }

  /** A punch on another card, or an estimate on a physical one. */
  lemma OtherCard(db: Db, op: Op, c: nat)
    requires IsOnlineCard(db, c) && Perform(db, op).Some? && ((op.PunchOp? && op.card != c) || op.EstimateOp?)
    ensures c in Step(db, op).cards.rows && Slack(Step(db, op), c) == Slack(db, c)
  {
    SameSlack(db, Step(db, op), c);
  }

  lemma PunchSlack(db: Db, op: Op)
    requires op.PunchOp? && Perform(db, op).Some?
    ensures IsOnlineCard(db, op.card) && op.card in Step(db, op).cards.rows
      && Slack(Step(db, op), op.card) == Slack(db, op.card) - 1
  {}

  lemma SourceStays(db: Db, op: Op, c: nat)
    requires Inv(db) && c in db.cards.rows && c in Step(db, op).cards.rows
    ensures Step(db, op).cards.rows[c].source == db.cards.rows[c].source
  {
    hide Inv, Perform;
    if Perform(db, op).Some? {
      if op.MergeOp? || op.DeleteOp? {
        AccountsKeepCards(db, op);
      } else if AddsRows(op) {
        AddedRows(db, op);
      } else {
        OthersKeepCards(db, op);
      }
    }
  }

  /** No card appears, and cards keep their source. */
  ghost predicate CardsKept(db: Db, after: Db) {
    forall c :: c in after.cards.rows ==> c in db.cards.rows && after.cards.rows[c].source == db.cards.rows[c].source
  }

  lemma AccountsKeepCards(db: Db, op: Op)
    requires Inv(db) && Perform(db, op).Some? && (op.MergeOp? || op.DeleteOp?)
    ensures CardsKept(db, Step(db, op))
  {
    hide CardsOk;
    match op
    case MergeOp(src, dst, actor) => MergeOutcome(db, src, dst, actor);
    case DeleteOp(user, actor) => DeleteOutcome(db, user, actor);
  }

  lemma OthersKeepCards(db: Db, op: Op)
    requires Perform(db, op).Some? && !AddsRows(op) && !op.MergeOp? && !op.DeleteOp?
    ensures CardsKept(db, Step(db, op))
  {
    hide Withdraw, DeliverOn, RegisterMeals, CardsKept;
    match op
    case RejectOp(r) => WithdrawKeepsCards(db, {r});
    case CancelRequestOp(r, user) => WithdrawKeepsCards(db, {r});
    case CancelAllOp(user) => WithdrawKeepsCards(db, OpenOf(db.requests.rows, user));
    case DeliverOp(o, who) => DeliveryKeepsCards(db, o, FindPhysicalTostiCard(db.cards, db.orders.rows[o].user), who);
    case SettleOp(o, found, who) => DeliveryKeepsCards(db, o, found, who);
    case MealsOp(cards, day, actor) => MealsKeepCards(db, cards, day, actor);
    case _ => BalanceKeepsCards(db, op);
  }

  lemma WithdrawKeepsCards(db: Db, rs: set<nat>)
    ensures CardsKept(db, Withdraw(db, rs))
  {}

  lemma DeliveryKeepsCards(db: Db, o: nat, found: Option<nat>, who: nat)
    requires DeliverOn(db, o, found, who).Ok?
    ensures CardsKept(db, DeliverOn(db, o, found, who).value)
  {}

  lemma MealsKeepCards(db: Db, cards: seq<int>, day: int, actor: nat)
    requires RegisterMeals(db, cards, day, actor).Ok?
    ensures CardsKept(db, RegisterMeals(db, cards, day, actor).value)
  {}

  lemma BalanceKeepsCards(db: Db, op: Op)
    requires Perform(db, op).Some? && (op.OrderOp? || op.CancelOrderOp? || op.PunchOp? || op.UndoOp? || op.EstimateOp?)
    ensures CardsKept(db, Step(db, op))
  {}

  /** Pending quantity <= remaining survives every operation but one: a committed punch on a card whose open orders
      claim the whole balance. That is what a caller can look up before punching. */
  lemma StepCovered(db: Db, op: Op, c: nat)
    requires Inv(db) && Covered(db, c) && c in Step(db, op).cards.rows
    ensures Covered(Step(db, op), c) <==> !(Overdraws(db, op) && op.card == c)
  {
    hide Inv, Perform, Slack, OpenQuantity, Step;
    SourceStays(db, op, c);
    if op.PunchOp? && op.card == c {
      PunchCovers(db, op);
    } else {
      StepSlack(db, op, c);
    }
  }

  lemma PunchCovers(db: Db, op: Op)
    requires op.PunchOp? && Covered(db, op.card) && op.card in Step(db, op).cards.rows
    ensures Slack(Step(db, op), op.card) >= 0 <==> !Overdraws(db, op)
  {
    hide Perform, Slack;
    if Perform(db, op).Some? { PunchSlack(db, op); }
  }

  // ----- Every run -----

  ghost predicate AllCovered(db: Db) { forall c :: IsOnlineCard(db, c) ==> Covered(db, c) }

  /** A card that the operation adds has no orders yet. */
  lemma NewCardCovered(db: Db, op: Op, c: nat)
    requires Inv(db) && c !in db.cards.rows && IsOnlineCard(Step(db, op), c)
    ensures Covered(Step(db, op), c)
  {
    var after := Step(db, op);
    StepKeeps(db, op);
    BalanceNotNegative(after, c);
    OrdersStayOnCards(db, op, c);
    hide Inv;
    TotalZero(after.orders.rows, PendingOn(c), after.orders.next);
  }

  lemma BalanceNotNegative(db: Db, c: nat)
    requires Inv(db) && c in db.cards.rows
    ensures db.cards.rows[c].knipjes >= 0
  {
    hide CardOk;
    BalancedView(View(db, c));
  }

  lemma OrdersStayOnCards(db: Db, op: Op, c: nat)
    requires Inv(db) && c !in db.cards.rows && c in Step(db, op).cards.rows
    ensures forall o :: o in Step(db, op).orders.rows ==> Step(db, op).orders.rows[o].card != Some(c)
  {
    hide Inv, Perform;
    TablesFit(db);
    if Perform(db, op).Some? {
      if AddsRows(op) {
        AddedRows(db, op);
      } else if op.MergeOp? || op.DeleteOp? {
        AccountsKeepCards(db, op);
      } else {
        OthersKeepCards(db, op);
      }
    }
    forall o | o in db.orders.rows ensures db.orders.rows[o].card != Some(c) { assert OrderLinked(db.cards.rows,
        db.orders.rows[o]); }
  }

  lemma StepAllCovered(db: Db, op: Op)
    requires Inv(db) && AllCovered(db)
    ensures AllCovered(Step(db, op)) <==> !Overdraws(db, op)
  {
    hide Inv, Perform, Covered;
    if Overdraws(db, op) {
      PunchSlack(db, op);
      assert IsOnlineCard(db, op.card) && Covered(db, op.card);
      StepCovered(db, op, op.card);
      SourceStays(db, op, op.card);
    } else {
      forall c | IsOnlineCard(Step(db, op), c) ensures Covered(Step(db, op), c) {
        if c in db.cards.rows {
          SourceStays(db, op, c);
          assert IsOnlineCard(db, c);
          StepCovered(db, op, c);
        } else {
          NewCardCovered(db, op, c);
        }
      }
    }
  }

  ghost predicate CoveredThroughout(db: Db, ops: seq<Op>)
    decreases |ops|
  {
    AllCovered(db) && (ops == [] || CoveredThroughout(Step(db, ops[0]), ops[1..]))
  }

  predicate NeverOverdrawn(db: Db, ops: seq<Op>)
    decreases |ops|
  {
    ops == [] || (!Overdraws(db, ops[0]) && NeverOverdrawn(Step(db, ops[0]), ops[1..]))
  }

  /** Pending quantity <= remaining holds on every online card all through a run exactly when no punch of the run
      overdraws. */
  lemma {:induction false} RunCovered(db: Db, ops: seq<Op>)
    requires Inv(db) && AllCovered(db)
    ensures CoveredThroughout(db, ops) <==> NeverOverdrawn(db, ops)
    decreases |ops|
  {
    hide Inv, AllCovered, Overdraws;
    if ops != [] {
      StepKeeps(db, ops[0]);
      StepAllCovered(db, ops[0]);
      if AllCovered(Step(db, ops[0])) { RunCovered(Step(db, ops[0]), ops[1..]); }
    }
  }

  lemma StartCovered(start: Db, ops: seq<Op>)
    requires Initial(start)
    ensures CoveredThroughout(start, ops) <==> NeverOverdrawn(start, ops)
  {
    Reachable(start, []);
    hide Inv;
    RunCovered(start, ops);
  }

  // ----- Delivering the open orders -----

  /** Orders delivered one after the other. */
  function DeliverAll(db: Db, orders: seq<nat>, who: nat): Outcome<Db>
    decreases |orders|
  {
    if orders == [] then Ok(db)
    else
      var first := Deliver(db, orders[0], who);
      if first.Err? then first else DeliverAll(first.value, orders[1..], who)
  }

  predicate IsOpenOn(db: Db, c: nat, o: nat) {
    o in db.orders.rows && db.orders.rows[o].status.Pending? && db.orders.rows[o].card == Some(c)
  }

  /** Some of the open orders on the card, each once. */
  ghost predicate OpenOrders(db: Db, c: nat, orders: seq<nat>) {
    && (forall i :: 0 <= i < |orders| ==> IsOpenOn(db, c, orders[i]))
    && (forall i, j :: 0 <= i < j < |orders| ==> orders[i] != orders[j])
  }

  /** All of them, in whatever order. */
  ghost predicate AllOpenOrders(db: Db, c: nat, orders: seq<nat>) {
    OpenOrders(db, c, orders) && forall o :: IsOpenOn(db, c, o) ==> o in orders
  }

  /** The card is online and its payment accorded. */
  predicate Accorded(db: Db, c: nat) { IsOnlineCard(db, c) && !AwaitsVerification(db.requests.rows, c) }

  /** Delivering one open order of an accorded card works exactly when the balance covers it. It keeps the slack, and
      touches no other order. */
  lemma DeliverOne(db: Db, c: nat, o: nat, who: nat)
    requires Inv(db) && Accorded(db, c) && IsOpenOn(db, c, o)
    ensures Deliver(db, o, who).Ok? <==> db.orders.rows[o].quantity <= db.cards.rows[c].knipjes
    ensures Deliver(db, o, who).Ok? ==>
      var next := Deliver(db, o, who).value;
      && Inv(next) && Accorded(next, c) && Slack(next, c) == Slack(db, c)
      && forall p :: IsOpenOn(next, c, p) <==> IsOpenOn(db, c, p) && p != o
  {
    var found := FindPhysicalTostiCard(db.cards, db.orders.rows[o].user);
    DeliverDecides(db, c, o, found, who);
    hide DeliverOn;
    if DeliverOn(db, o, found, who).Ok? {
      DeliverOnKeeps(db, o, found, who);
      DeliverSlack(db, o, found, who, c);
    }
  }

  lemma DeliverDecides(db: Db, c: nat, o: nat, found: Option<nat>, who: nat)
    requires Inv(db) && Accorded(db, c) && IsOpenOn(db, c, o)
    ensures DeliverOn(db, o, found, who).Ok? <==> db.orders.rows[o].quantity <= db.cards.rows[c].knipjes
    ensures DeliverOn(db, o, found, who).Ok? ==>
      var next := DeliverOn(db, o, found, who).value;
      Accorded(next, c) && forall p :: IsOpenOn(next, c, p) <==> IsOpenOn(db, c, p) && p != o
  {
    hide CardOk;
    var v := View(db, c);
    assert o in v.orders && CardOk(v);
    CardOrderFits(v, o);
  }

  /** An open order is at most all open orders together. */
  lemma QuantityWithin(db: Db, c: nat, o: nat)
    requires Inv(db) && IsOpenOn(db, c, o)
    ensures 0 < db.orders.rows[o].quantity <= OpenQuantity(db, c)
  {
    hide Inv;
    TablesFit(db);
    TotalNonNegative(db.orders.rows, PendingOn(c), db.orders.next);
    assert Share(db.orders.rows, PendingOn(c), o) == db.orders.rows[o].quantity;
  }

  lemma {:induction false} CoveredDelivers(db: Db, c: nat, orders: seq<nat>, who: nat)
    requires Inv(db) && Accorded(db, c) && Covered(db, c) && OpenOrders(db, c, orders)
    ensures DeliverAll(db, orders, who).Ok?
    decreases |orders|
  {
    hide Inv, Deliver, IsOpenOn, OpenQuantity, AwaitsVerification;
    if orders != [] {
      assert IsOpenOn(db, c, orders[0]);
      QuantityWithin(db, c, orders[0]);
      DeliverOne(db, c, orders[0], who);
      CoveredDelivers(Deliver(db, orders[0], who).value, c, orders[1..], who);
    }
  }

  /** Delivering orders of the card keeps its slack and leaves the others open. */
  lemma {:induction false} DeliveredSlack(db: Db, c: nat, orders: seq<nat>, who: nat)
    requires Inv(db) && Accorded(db, c) && OpenOrders(db, c, orders) && DeliverAll(db, orders, who).Ok?
    ensures var last := DeliverAll(db, orders, who).value;
      && Inv(last) && Accorded(last, c) && Slack(last, c) == Slack(db, c)
      && forall p :: IsOpenOn(last, c, p) ==> IsOpenOn(db, c, p) && p !in orders
    decreases |orders|
  {
    hide Inv, Deliver, IsOpenOn, Slack, AwaitsVerification;
    if orders != [] {
      assert IsOpenOn(db, c, orders[0]);
      DeliverOne(db, c, orders[0], who);
      DeliveredSlack(Deliver(db, orders[0], who).value, c, orders[1..], who);
      assert forall p :: p in orders <==> p == orders[0] || p in orders[1..];
    }
  }

  /** All open orders of an accorded online card can be delivered, in whichever order, exactly when together they are
      within its balance. */
  lemma AllDeliverable(db: Db, c: nat, orders: seq<nat>, who: nat)
    requires Inv(db) && Accorded(db, c) && AllOpenOrders(db, c, orders)
    ensures DeliverAll(db, orders, who).Ok? <==> OpenQuantity(db, c) <= db.cards.rows[c].knipjes
  {
    hide Inv, IsOpenOn;
    if DeliverAll(db, orders, who).Ok? {
      DeliveredSlack(db, c, orders, who);
      var last := DeliverAll(db, orders, who).value;
      BalanceNotNegative(last, c);
      NothingOpen(last, c);
    } else if Covered(db, c) {
      CoveredDelivers(db, c, orders, who);
    }
  }

  lemma NothingOpen(db: Db, c: nat)
    requires forall o :: !IsOpenOn(db, c, o)
    ensures OpenQuantity(db, c) == 0
  {
    forall o: nat | o < db.orders.next ensures Share(db.orders.rows, PendingOn(c), o) == 0 {
      assert !IsOpenOn(db, c, o);
    }
    TotalZero(db.orders.rows, PendingOn(c), db.orders.next);
  }

  /** The open orders on the card with ids below `n`. */
  function OpenBelow(db: Db, c: nat, n: nat): seq<nat> {
    if n == 0 then [] else OpenBelow(db, c, n - 1) + (if IsOpenOn(db, c, n - 1) then [n - 1] else [])
  }

  lemma {:induction false} OpenBelowLists(db: Db, c: nat, n: nat)
    ensures OpenOrders(db, c, OpenBelow(db, c, n))
    ensures forall o: nat :: o in OpenBelow(db, c, n) <==> IsOpenOn(db, c, o) && o < n
  {
    hide IsOpenOn;
    if n > 0 {
      OpenBelowLists(db, c, n - 1);
      var rest := OpenBelow(db, c, n - 1);
      forall i | 0 <= i < |rest| ensures rest[i] < n - 1 { assert rest[i] in rest; }
    }
  }

  lemma OpenIsBelow(db: Db, c: nat)
    requires Inv(db)
    ensures forall o: nat :: IsOpenOn(db, c, o) ==> o < db.orders.next
  {
    hide Inv;
    TablesFit(db);
  }

  /** Any choice of open orders can be delivered, in any order, exactly when all of them together are within the
      balance. */
  lemma AnyDeliverable(db: Db, c: nat, who: nat)
    requires Inv(db) && Accorded(db, c)
    ensures (forall orders :: OpenOrders(db, c, orders) ==> DeliverAll(db, orders, who).Ok?)
      <==> OpenQuantity(db, c) <= db.cards.rows[c].knipjes
  {
    hide Inv, IsOpenOn, OpenQuantity, OpenBelow, DeliverAll, AwaitsVerification;
    var all := OpenBelow(db, c, db.orders.next);
    OpenBelowLists(db, c, db.orders.next);
    OpenIsBelow(db, c);
    AllDeliverable(db, c, all, who);
    if Covered(db, c) {
      forall orders | OpenOrders(db, c, orders) ensures DeliverAll(db, orders,
          who).Ok? { CoveredDelivers(db, c, orders, who); }
    }
  }

  /** In particular they can when no manual punch is outstanding. */
  lemma UnpunchedDeliverable(db: Db, c: nat, orders: seq<nat>, who: nat)
    requires Inv(db) && Accorded(db, c) && c in db.log && LivePunches(db.log[c]) == 0 && OpenOrders(db, c, orders)
    ensures DeliverAll(db, orders, who).Ok?
  {
    BoundNow(db, c);
    hide Inv;
    CoveredDelivers(db, c, orders, who);
  }

  // ----- A punch that overdraws -----

  const OWNER := SaveUserOp(None, User(Some("a"), false, false, false))
  const REQUEST := RequestOp(1, Tosti)
  const ACCORD := FulfilOp(1, 1, 1500, 24320)
  const TEN := OrderOp(1, Some(1), "wit", "ham", 10, "")
  const PUNCH := PunchOp(1, Some(Actor(1, true, false)))

  /** A full card, all of it ordered, is punched: ten pending tostis, nine knipjes, and the delivery is refused. */
  lemma PunchOverdraws()
    ensures Initial(EMPTY)
    ensures var db := Run(EMPTY, [OWNER, REQUEST, ACCORD, TEN, PUNCH]);
      && IsOnlineCard(db, 1) && OpenQuantity(db, 1) == 10 && db.cards.rows[1].knipjes == 9
      && Deliver(db, 1, 1) == Err(NoKnipjes)
  {
    hide Step;
    var accorded := Step(Step(Step(EMPTY, OWNER), REQUEST), ACCORD);
    FullCard();
    var ordered := Step(accorded, TEN);
    AllOrdered(accorded);
    Punched(ordered);
    RunOfFive(EMPTY, OWNER, REQUEST, ACCORD, TEN, PUNCH);
  }

  /** An accorded full card 1 of user 1. */
  ghost predicate HasFullCard(db: Db) {
    && db.cards.rows == map[1 := Card(1, Tosti, Online, 10)] && !AwaitsVerification(db.requests.rows, 1) && 1 in db.log
  }

  lemma FullCard()
    ensures var db := Step(Step(Step(EMPTY, OWNER), REQUEST), ACCORD); HasFullCard(db) && db.orders == EMPTY.orders
  {
    var member := Step(EMPTY, OWNER);
    assert member.users.rows == map[1 := OWNER.row] && member.cards == EMPTY.cards && member.requests == EMPTY.requests;
    assert !HasOpenRequest(member.requests.rows, 1, Tosti);
    var requested := Step(member, REQUEST);
    assert requested.requests.rows == map[1 := Request(1, Tosti, Open, Some(1), 0, None)];
    var accorded := Step(requested, ACCORD);
    assert accorded.requests.rows.Keys == {1} && accorded.requests.rows[1].status.Fulfilled?;
  }

  lemma AllOrdered(db: Db)
    requires HasFullCard(db) && db.orders == EMPTY.orders
    ensures HasFullCard(Step(db, TEN)) && Step(db, TEN).orders.next == 2 && Step(db, TEN).orders.rows.Keys == {1}
    ensures var row := Step(db, TEN).orders.rows[1];
      row.user == 1 && row.card == Some(1) && row.quantity == 10 && row.status == Pending
  {
    assert Total(db.orders.rows, PendingOf(1, 1), 1) == 0;
  }

  lemma Punched(db: Db)
    requires HasFullCard(db) && db.orders.next == 2 && db.orders.rows.Keys == {1}
    requires var row := db.orders.rows[1];
      row.user == 1 && row.card == Some(1) && row.quantity == 10 && row.status == Pending
    ensures var after := Step(db, PUNCH);
      && IsOnlineCard(after, 1) && OpenQuantity(after, 1) == 10 && after.cards.rows[1].knipjes == 9
      && Deliver(after, 1, 1) == Err(NoKnipjes)
  {
    assert Total(db.orders.rows, PendingOn(1), 1) == 0;
    assert OpenQuantity(db, 1) == 10;
  }

  lemma RunOfFive(db: Db, a: Op, b: Op, c: Op, d: Op, e: Op)
    ensures Run(db, [a, b, c, d, e]) == Step(Step(Step(Step(Step(db, a), b), c), d), e)
  {
    hide Step;
    assert [a, b, c, d, e][1..] == [b, c, d, e] && [b, c, d, e][1..] == [c, d, e] && [c, d, e][1..]
      == [d, e] && [d, e][1..] == [e];
    assert [e][1..] == [];
    var o3 := Step(Step(Step(db, a), b), c);
    assert Run(o3, [d, e]) == Run(Step(o3, d), [e]) == Run(Step(Step(o3, d), e), []);
    assert Run(db, [a, b, c, d, e]) == Run(Step(db, a), [b, c, d, e]);
    assert Run(Step(db, a), [b, c, d, e]) == Run(Step(Step(db, a), b), [c, d, e]) == Run(o3, [d, e]);
  }
}
