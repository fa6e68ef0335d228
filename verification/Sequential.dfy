/** Transactions one after the other are one of the interleavings: nothing in the step machine holds an operation back
    that would go through on its own. */
module Sequential {
  import opened Prelude
  import opened Journal
  import opened Ledger
  import opened CardBook
  import opened Invariant
  import opened Runs
  import opened Interleaving

  /** The operations that take part in interleavings. */
  predicate TakesPart(op: Op) {
    !op.MergeOp? && !op.DeleteOp? && !op.PlaceRequestOp? && !op.PlaceSaleOp? && !op.SettleOp?
  }

  // ----- Reaching a state -----

  ghost predicate Reaches(s: Sys, s': Sys) {
    exists states, actions :: Trace(states, actions) && states[0] == s && states[|actions|] == s'
  }

  lemma Stays(s: Sys)
    ensures Reaches(s, s)
  {
    assert Trace([s], []);
  }

  lemma OneMore(s: Sys, mid: Sys, a: Action, s': Sys)
    requires Reaches(s, mid) && Next(mid, a, s')
    ensures Reaches(s, s')
  {
    hide Next;
    var states, actions :| Trace(states, actions) && states[0] == s && states[|actions|] == mid;
    assert Trace(states + [s'], actions + [a]);
    assert (states + [s'])[|actions + [a]|] == s';
  }

  lemma {:induction false} Continues(s: Sys, states: seq<Sys>, actions: seq<Action>)
    requires Trace(states, actions) && Reaches(s, states[0])
    ensures Reaches(s, states[|actions|])
    decreases |actions|
  {
    hide Next, Reaches;
    var n := |actions|;
    if n > 0 {
      assert Trace(states[..n], actions[..n - 1]);
      Continues(s, states[..n], actions[..n - 1]);
      OneMore(s, states[n - 1], actions[n - 1], states[n]);
    }
  }

  // ----- One transaction alone -----

  /** Transaction 1 runs alone and stands at `t`. */
  function Alone(db: Db, t: Txn): Sys { Sys(db, map[1 := t]) }

  function Idle(db: Db): Sys { Sys(db, map[]) }

  /** Alone, `op` comes to stand at `t`, and all it has checked is true. */
  ghost predicate ComesTo(db: Db, op: Op, t: Txn) {
    Reaches(Idle(db), Alone(db, t)) && StillTrue(db, t)
  }

  lemma Starts(db: Db, op: Op)
    ensures ComesTo(db, op, Begun(op))
  {
    Stays(Idle(db));
    assert Alone(db, Begun(op)).txns == Idle(db).txns[1 := Begun(op)];
    OneMore(Idle(db), Idle(db), Begin(1, op), Alone(db, Begun(op)));
  }

  lemma MovesOn(db: Db, op: Op, t: Txn, u: Txn)
    requires ComesTo(db, op, t) && Advances(db, t, u)
    ensures ComesTo(db, op, u)
  {
    AdvanceStaysTrue(db, t, u);
    hide StillTrue, Advances, Reaches;
    assert Alone(db, u).txns == Alone(db, t).txns[1 := u];
    OneMore(Idle(db), Alone(db, t), Advance(1, u), Alone(db, u));
  }

  lemma Finishes(db: Db, op: Op, t: Txn)
    requires Inv(db) && ComesTo(db, op, t) && AtCommit(t) && !t.WithdrawingAll?
    requires Perform(db, op).Some? && Perform(db, CommitOp(t)) == Perform(db, op)
    requires t.BuyerChecked? ==> Writable(db, t)
    ensures Reaches(Idle(db), Idle(Step(db, op)))
  {
    hide Inv, StillTrue, Reaches, AtCommit, CommitOp, Perform, Writes, Writable;
    CommitIsAtomic(db, t);
    assert Alone(db, t).txns - {1} == map[];
    OneMore(Idle(db), Alone(db, t), Commit(1), Idle(Step(db, op)));
  }

  // ----- Each operation -----

  lemma PlacesAlone(db: Db, op: Op)
    requires Inv(db) && Perform(db, op).Some? && (op.RequestOp? || op.SellOp?)
    ensures Reaches(Idle(db), Idle(Step(db, op)))
  {
    hide Inv, Reaches;
    Starts(db, op);
    MovesOn(db, op, Begun(op), BuyerChecked(op));
    Finishes(db, op, BuyerChecked(op));
  }

  lemma OrdersAlone(db: Db, op: Op)
    requires Inv(db) && Perform(db, op).Some? && op.OrderOp?
    ensures Reaches(Idle(db), Idle(Step(db, op)))
  {
    hide Inv, Reaches;
    if op.onCard.None? {
      Stays(Idle(db));
      OneMore(Idle(db), Idle(db), Insert(op), Idle(Step(db, op)));
    } else {
      var c := op.onCard.value;
      var card := db.cards.rows[c];
      Starts(db, op);
      MovesOn(db, op, Begun(op), OrderOnCard(op, c, card));
      MovesOn(db, op, OrderOnCard(op, c, card), OrderAdmitted(op, c, card));
      Finishes(db, op, OrderAdmitted(op, c, card));
    }
  }

  lemma CancelsAlone(db: Db, op: Op)
    requires Inv(db) && Perform(db, op).Some? && op.CancelOrderOp?
    ensures Reaches(Idle(db), Idle(Step(db, op)))
  {
    hide Inv, Reaches;
    var t := CancellingOrder(op, op.order, db.orders.rows[op.order]);
    Starts(db, op);
    MovesOn(db, op, Begun(op), t);
    Finishes(db, op, t);
  }

  lemma PunchesAlone(db: Db, op: Op)
    requires Inv(db) && Perform(db, op).Some? && op.PunchOp?
    ensures Reaches(Idle(db), Idle(Step(db, op)))
  {
    hide Inv, Reaches;
    var c, card := op.card, db.cards.rows[op.card];
    Starts(db, op);
    MovesOn(db, op, Begun(op), PunchingCard(op, c, card));
    MovesOn(db, op, PunchingCard(op, c, card), PunchVerified(op, c, card));
    Finishes(db, op, PunchVerified(op, c, card));
  }

  lemma EstimatesAlone(db: Db, op: Op)
    requires Inv(db) && Perform(db, op).Some? && op.EstimateOp?
    ensures Reaches(Idle(db), Idle(Step(db, op)))
  {
    hide Inv, Reaches;
    var t := EstimatingCard(op, op.card, db.cards.rows[op.card]);
    Starts(db, op);
    MovesOn(db, op, Begun(op), t);
    Finishes(db, op, t);
  }

  lemma FulfilsAlone(db: Db, op: Op)
    requires Inv(db) && Perform(db, op).Some? && op.FulfilOp?
    ensures Reaches(Idle(db), Idle(Step(db, op)))
  {
    hide Inv, Reaches;
    var t := Fulfilling(op, op.request, db.requests.rows[op.request]);
    Starts(db, op);
    MovesOn(db, op, Begun(op), t);
    Finishes(db, op, t);
  }

  lemma UndoesAlone(db: Db, op: Op)
    requires Inv(db) && Perform(db, op).Some? && op.UndoOp?
    ensures Reaches(Idle(db), Idle(Step(db, op)))
  {
    hide Inv, Reaches;
    var c, i := op.card, op.line;
    var line, card := db.log[c][i], db.cards.rows[c];
    Starts(db, op);
    MovesOn(db, op, Begun(op), UndoingLine(op, c, i, line));
    MovesOn(db, op, UndoingLine(op, c, i, line), UndoingOnCard(op, c, i, line, card));
    Finishes(db, op, UndoingOnCard(op, c, i, line, card));
  }

  /** An open order with a card is on an online card. */
  lemma OpenOrderOnline(db: Db, o: nat)
    requires Inv(db) && o in db.orders.rows && db.orders.rows[o].status.Pending? && db.orders.rows[o].card.Some?
    ensures db.orders.rows[o].card.value in db.cards.rows
      && db.cards.rows[db.orders.rows[o].card.value].source == Online
  {
    hide CardOk;
    assert OrderLinked(db.cards.rows, db.orders.rows[o]);
    var v := View(db, db.orders.rows[o].card.value);
    assert CardOk(v) && o in v.orders;
    CardOrderFits(v, o);
  }

  lemma DeliversAlone(db: Db, op: Op)
    requires Inv(db) && Perform(db, op).Some? && op.DeliverOp?
    ensures Reaches(Idle(db), Idle(Step(db, op)))
  {
    hide Inv, Reaches, FindPhysicalTostiCard;
    var o, order := op.order, db.orders.rows[op.order];
    var t := DeliveringOrder(op, o, order);
    Starts(db, op);
    MovesOn(db, op, Begun(op), t);
    if order.card.Some? {
      OpenOrderOnline(db, o);
      var c, card := order.card.value, db.cards.rows[order.card.value];
      MovesOn(db, op, t, DeliveringOnCard(op, o, order, c, card));
      MovesOn(db, op, DeliveringOnCard(op, o, order, c, card), DeliveryVerified(op, o, order, c, card));
      Finishes(db, op, DeliveryVerified(op, o, order, c, card));
    } else {
      DeliversUncarded(db, op, t);
    }
  }

  lemma DeliversUncarded(db: Db, op: Op, t: Txn)
    requires Inv(db) && Perform(db, op).Some? && op.DeliverOp? && db.orders.rows[op.order].card.None?
    requires t == DeliveringOrder(op, op.order, db.orders.rows[op.order]) && ComesTo(db, op, t)
    ensures Reaches(Idle(db), Idle(Step(db, op)))
  {
    hide Inv, Reaches, FindPhysicalTostiCard;
    var o, order := op.order, db.orders.rows[op.order];
    match FindPhysicalTostiCard(db.cards, order.user)
    case Some(c) =>
      var u := PhysicalFound(op, o, order, c, db.cards.rows[c]);
      MovesOn(db, op, t, u);
      Finishes(db, op, u);
    case None =>
      var u := NoCardFound(op, o, order);
      MovesOn(db, op, t, u);
      Finishes(db, op, u);
  }

  /** The cards of a batch are read one after the other. */
  lemma {:induction false} ReadsMeals(db: Db, op: Op, cs: set<nat>)
    requires op.MealsOp? && cs <= Selected(op.cards)
    requires forall c :: c in cs ==> MealError(db, c, op.day).None?
    requires ComesTo(db, op, BookingMeals(op, map[]))
    ensures forall c :: c in cs ==> c in db.cards.rows
    ensures ComesTo(db, op, BookingMeals(op, map c | c in cs :: db.cards.rows[c]))
    decreases |cs|
  {
    hide ComesTo;
    if c :| c in cs {
      var rest := cs - {c};
      ReadsMeals(db, op, rest);
      var read := map d | d in rest :: db.cards.rows[d];
      var more := map d | d in cs :: db.cards.rows[d];
      assert more == read[c := db.cards.rows[c]];
      assert MealRead(db, c, more[c], op.day);
      MovesOn(db, op, BookingMeals(op, read), BookingMeals(op, more));
    } else {
      assert cs == {};
    }
  }

  lemma MealsBegin(db: Db, op: Op)
    requires op.MealsOp?
    ensures Advances(db, Begun(op), BookingMeals(op, map[]))
  {}

  lemma MealsEnd(op: Op, read: map<nat, Card>)
    requires op.MealsOp? && read.Keys == Selected(op.cards)
    ensures AtCommit(BookingMeals(op, read)) && CommitOp(BookingMeals(op, read)) == op
  {}

  lemma AllBookable(db: Db, op: Op)
    requires op.MealsOp? && Perform(db, op).Some?
    ensures forall c :: c in Selected(op.cards) ==> MealError(db, c, op.day).None?
  {
    hide MealError, BookMeals, FirstRefusal, Selected;
    FirstRefusalNone(db, op.cards, op.day);
  }

  lemma EatsAlone(db: Db, op: Op)
    requires Inv(db) && Perform(db, op).Some? && op.MealsOp?
    ensures Reaches(Idle(db), Idle(Step(db, op)))
  {
    hide Inv, Reaches, ComesTo, MealError, Perform, Step, Advances, AtCommit, CommitOp, Selected;
    var cs := Selected(op.cards);
    AllBookable(db, op);
    Starts(db, op);
    MealsBegin(db, op);
    MovesOn(db, op, Begun(op), BookingMeals(op, map[]));
    ReadsMeals(db, op, cs);
    var read := map c | c in cs :: db.cards.rows[c];
    assert read.Keys == cs;
    MealsEnd(op, read);
    Finishes(db, op, BookingMeals(op, read));
  }

  lemma WithdrawsAlone(db: Db, op: Op)
    requires Inv(db) && Perform(db, op).Some? && (op.RejectOp? || op.CancelRequestOp?)
    ensures Reaches(Idle(db), Idle(Step(db, op)))
  {
    hide Inv, Reaches, Withdraw;
    var r, request := op.request, db.requests.rows[op.request];
    var t := Withdrawing(op, r, request);
    Starts(db, op);
    MovesOn(db, op, Begun(op), t);
    if request.card.Some? {
      var u := WithdrawingCard(op, r, request, request.card.value, db.cards.rows[request.card.value]);
      MovesOn(db, op, t, u);
      Finishes(db, op, u);
    } else {
      Finishes(db, op, t);
    }
  }

  /** The rows that cancel-all locks. */
  function OwnOpen(db: Db, user: nat): map<nat, Request> {
    map r | r in OpenOf(db.requests.rows, user) && r in db.requests.rows :: db.requests.rows[r]
  }

  lemma LocksAll(db: Db, op: Op)
    requires op.CancelAllOp?
    requires forall r :: r in db.requests.rows && IsOpenOf(db.requests.rows[r], op.user) ==>
      db.requests.rows[r].card.Some?
    ensures OwnOpen(db, op.user).Keys == OpenOf(db.requests.rows, op.user)
    ensures Advances(db, Begun(op), WithdrawingAll(op, OwnOpen(db, op.user)))
  {
    var rows := OwnOpen(db, op.user);
    forall r | r in rows ensures OwnRequestRead(db, r, rows[r], op.user) {}
  }

  lemma CancelsAll(db: Db, op: Op)
    requires op.CancelAllOp? && Perform(db, op).Some?
    ensures CancelAll(db, op.user).Ok? && Step(db, op) == Withdraw(db, OpenOf(db.requests.rows, op.user))
  {
    hide Withdraw, OpenOf, Obstacles;
  }

  lemma CancelsAllAlone(db: Db, op: Op)
    requires Inv(db) && Perform(db, op).Some? && op.CancelAllOp?
    ensures Reaches(Idle(db), Idle(Step(db, op)))
  {
    hide Inv, Reaches, Withdraw, Perform, Step, Advances, OwnOpen, OpenOf, StillTrue, Writes, Writable;
    var t := WithdrawingAll(op, OwnOpen(db, op.user));
    CancelAllSucceeds(db, op.user);
    CancelsAll(db, op);
    LocksAll(db, op);
    Starts(db, op);
    MovesOn(db, op, Begun(op), t);
    WithdrawAllIsRun(db, op, t.rows);
    assert Alone(db, t).txns - {1} == map[];
    OneMore(Idle(db), Alone(db, t), Commit(1), Idle(Step(db, op)));
  }

  /** Every operation that goes through as a whole goes through as a transaction. */
  lemma RunsAlone(db: Db, op: Op)
    requires Inv(db) && TakesPart(op)
    ensures Reaches(Idle(db), Idle(Step(db, op)))
  {
    hide Inv, Reaches;
    if Perform(db, op).None? {
      Stays(Idle(db));
    } else {
      hide Perform;
      match op
      case RequestOp(_, _) => PlacesAlone(db, op);
      case SellOp(_, _, _, _, _) => PlacesAlone(db, op);
      case FulfilOp(_, _, _, _) => FulfilsAlone(db, op);
      case RejectOp(_) => WithdrawsAlone(db, op);
      case CancelRequestOp(_, _) => WithdrawsAlone(db, op);
      case CancelAllOp(_) => CancelsAllAlone(db, op);
      case OrderOp(_, _, _, _, _, _) => OrdersAlone(db, op);
      case CancelOrderOp(_, _, _) => CancelsAlone(db, op);
      case DeliverOp(_, _) => DeliversAlone(db, op);
      case PunchOp(_, _) => PunchesAlone(db, op);
      case MealsOp(_, _, _) => EatsAlone(db, op);
      case UndoOp(_, _, _) => UndoesAlone(db, op);
      case EstimateOp(_, _, _) => EstimatesAlone(db, op);
      case SaveUserOp(_, _) =>
        Stays(Idle(db));
        OneMore(Idle(db), Idle(db), Insert(op), Idle(Step(db, op)));
    }
  }

  lemma Chained(s: Sys, mid: Sys, s': Sys)
    requires Reaches(s, mid) && Reaches(mid, s')
    ensures Reaches(s, s')
  {
    var states, actions :| Trace(states, actions) && states[0] == mid && states[|actions|] == s';
    hide Reaches;
    Continues(s, states, actions);
  }

  /** Every run of whole operations is an interleaving of their transactions: with `Interleaving.Serialises`, neither
      has committed databases that the other cannot have, but for commits that went by what they had read unlocked. */
  lemma {:induction false} EveryRunInterleaves(db: Db, ops: seq<Op>)
    requires Inv(db) && forall i :: 0 <= i < |ops| ==> TakesPart(ops[i])
    ensures Reaches(Idle(db), Idle(Run(db, ops)))
    decreases |ops|
  {
    hide Inv, Reaches, Step, TakesPart;
    if ops == [] {
      Stays(Idle(db));
    } else {
      StepKeeps(db, ops[0]);
      RunsAlone(db, ops[0]);
      EveryRunInterleaves(Step(db, ops[0]), ops[1..]);
      Chained(Idle(db), Idle(Step(db, ops[0])), Idle(Run(db, ops)));
    }
  }
}
