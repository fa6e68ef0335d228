/** Every operation on cards, requests, orders, meals and log lines keeps the database invariant. */
module Preservation {
  import opened Prelude
  import opened Journal
  import opened Ledger
  import opened CardBook
  import opened CardSteps
  import opened Invariant

  // ----- Issue, sell, fulfil -----

  /** A new card, with the request that goes with it either inserted (`r` is the next id) or completed. */
  ghost predicate Issuable(db: Db, card: Card, r: nat, row: Request, n: nat) {
    && 0 <= card.knipjes <= FULL_CARD
    && row.card == Some(db.cards.next) && row.user == card.owner && row.kind == card.kind && row.trustUsed <= FULL_CARD
    && !row.status.Withdrawn? && (row.price.Some? <==> row.status.Fulfilled?)
    && (row.status.Open? ==> card.source == Online && card.knipjes == FULL_CARD)
    && ((r == db.requests.next && n == r + 1)
          || (r in db.requests.rows && db.requests.rows[r].card.None? && n == db.requests.next))
    && (row.status.Open? ==> r !in db.requests.rows && !HasOpenRequest(db.requests.rows, row.user, row.kind))
  }

  lemma IssueUnique(requests: map<nat, Request>, r: nat, row: Request)
    requires OneOpenPerKind(requests)
      && (row.status.Open? ==> r !in requests && !HasOpenRequest(requests, row.user, row.kind))
    ensures OneOpenPerKind(requests[r := row])
  {}

  lemma IssueRequests(db: Db, card: Card, r: nat, row: Request, n: nat)
    requires db.cards.Valid() && RequestsOk(db.cards.rows, db.requests.rows) && Issuable(db, card, r, row, n)
    ensures RequestsOk(db.cards.rows[db.cards.next := card], db.requests.rows[r := row])
  {
    var cards, after := db.cards.rows[db.cards.next := card], db.requests.rows[r := row];
    forall s | s in after ensures RequestFits(cards, after[s]) {
      if s != r { assert RequestFits(db.cards.rows, db.requests.rows[s]); }
    }
    forall s, t | s in after && t in after && after[s].card.Some? && after[s].card == after[t].card ensures s == t {
      if s != r { assert RequestFits(db.cards.rows, db.requests.rows[s]); }
      if t != r { assert RequestFits(db.cards.rows, db.requests.rows[t]); }
    }
    IssueUnique(db.requests.rows, r, row);
  }

  lemma IssueOrders(db: Db, card: Card)
    requires db.cards.Valid() && OrdersLinked(db.cards.rows, db.orders.rows)
    ensures OrdersLinked(db.cards.rows[db.cards.next := card], db.orders.rows)
    ensures OrdersOn(db.orders.rows, db.cards.next) == map[]
  {
    var cards := db.cards.rows[db.cards.next := card];
    forall o | o in db.orders.rows ensures OrderLinked(cards,
        db.orders.rows[o]) && db.orders.rows[o].card != Some(db.cards.next) {
      assert OrderLinked(db.cards.rows, db.orders.rows[o]);
    }
  }

  lemma IssueAwaits(requests: map<nat, Request>, cards: map<nat, Card>, r: nat, row: Request, c: nat)
    requires RequestsOk(cards, requests) && c !in cards && row.card == Some(c)
    ensures AwaitsVerification(requests[r := row], c) == row.status.Open?
  {
    assert forall s :: s in requests ==> RequestFits(cards, requests[s]);
    assert requests[r := row][r] == row;
  }

  lemma IssueWithRequest(db: Db, card: Card, actor: Option<nat>, r: nat, row: Request, n: nat)
    requires Inv(db) && Issuable(db, card, r, row, n)
    ensures Inv(Issue(db, card, actor).(requests := Table(db.requests.rows[r := row], n)))
  {
    hide CardOk;
    var c := db.cards.next;
    var after := Issue(db, card, actor).(requests := Table(db.requests.rows[r := row], n));
    IssueRequests(db, card, r, row, n);
    IssueOrders(db, card);
    assert Shape(after);
    hide RequestsOk, OrdersLinked;
    forall d | d in after.cards.rows ensures CardOk(View(after, d)) {
      if d == c {
        IssueAwaits(db.requests.rows, db.cards.rows, r, row, c);
        assert View(after, c) == NewCard(card, actor, row.status.Open?, db.orders.next);
        IssueKeeps(card, actor, row.status.Open?, db.orders.next);
      } else {
        IssueElsewhere(db.requests.rows, r, row, d);
        assert View(after, d) == View(db, d);
      }
    }
  }

  lemma IssueElsewhere(requests: map<nat, Request>, r: nat, row: Request, d: nat)
    requires row.card != Some(d) && (r in requests ==> requests[r].card.None?)
    ensures AwaitsVerification(requests[r := row], d) == AwaitsVerification(requests, d)
  {
    if AwaitsVerification(requests, d) {
      var s :| s in requests && requests[s].status.Open? && requests[s].card == Some(d);
      assert requests[r := row][s] == requests[s];
    }
  }

  lemma RequestCardKeeps(db: Db, user: nat, kind: Kind)
    requires Inv(db) && RequestCard(db, user, kind).Ok?
    ensures Inv(RequestCard(db, user, kind).value)
  {
    hide Inv;
    PlaceRequestKeeps(db, user, kind);
  }

  /** The inserts need no check but the unique index: whatever was read earlier, they keep the invariant. */
  lemma PlaceRequestKeeps(db: Db, user: nat, kind: Kind)
    requires Inv(db) && PlaceRequest(db, user, kind).Ok?
    ensures Inv(PlaceRequest(db, user, kind).value)
  {
    IssueWithRequest(db, Card(user, kind, Online, FULL_CARD), None, db.requests.next,
                     Request(user, kind, Open, Some(db.cards.next), 0, None), db.requests.next + 1);
  }

  lemma SellPhysicalKeeps(db: Db, buyer: nat, seller: nat, kind: Kind, price: int, month: int)
    requires Inv(db) && SellPhysical(db, buyer, seller, kind, price, month).Ok?
    ensures Inv(SellPhysical(db, buyer, seller, kind, price, month).value)
  {
    hide Inv;
    PlaceSaleKeeps(db, buyer, seller, kind, price, month);
  }

  lemma PlaceSaleKeeps(db: Db, buyer: nat, seller: nat, kind: Kind, price: int, month: int)
    requires Inv(db) && PlaceSale(db, buyer, seller, kind, price, month).Ok?
    ensures Inv(PlaceSale(db, buyer, seller, kind, price, month).value)
  {
    IssueWithRequest(db, Card(buyer, kind, Physical, FULL_CARD), Some(seller), db.requests.next,
                     Request(buyer, kind, Fulfilled(Some(seller), month), Some(db.cards.next), 0, Some(price)),
                         db.requests.next + 1);
  }

  lemma FulfilKeepsDb(db: Db, r: nat, admin: nat, price: int, month: int)
    requires Inv(db) && Fulfil(db, r, admin, price, month).Ok?
    ensures Inv(Fulfil(db, r, admin, price, month).value)
  {
    hide CardOk;
    var row := db.requests.rows[r];
    assert RequestFits(db.cards.rows, row);
    if row.card.None? {
      IssueWithRequest(db, Card(row.user, row.kind, Online, FULL_CARD - row.trustUsed), Some(admin), r,
                       SoldRow(row, admin, price, month, Some(db.cards.next)), db.requests.next);
    } else {
      AccordKeeps(db, r, SoldRow(row, admin, price, month, row.card));
    }
  }

  /** Accordering: the request no longer awaits, so its card is active. */
  lemma AccordKeeps(db: Db, r: nat, row: Request)
    requires Inv(db) && r in db.requests.rows && db.requests.rows[r].status.Open? && db.requests.rows[r].card.Some?
    requires row.status.Fulfilled? && row.price.Some?
      && row == db.requests.rows[r].(status := row.status, price := row.price)
    ensures Inv(SetRequest(db, r, row))
  {
    hide CardOk;
    var after := SetRequest(db, r, row);
    forall s | s in after.requests.rows ensures RequestFits(after.cards.rows, after.requests.rows[s]) {
      assert RequestFits(db.cards.rows, db.requests.rows[s]);
    }
    forall d | d in after.cards.rows ensures CardOk(View(after, d)) {
      var v := View(db, d);
      assert CardOk(v);
      if row.card == Some(d) {
        assert !AwaitsVerification(after.requests.rows, d);
        assert View(after, d) == v.(open := false);
        FulfilKeeps(v);
      } else {
        AccordElsewhere(db.requests.rows, r, row, d);
        assert View(after, d) == v;
      }
    }
  }

  lemma AccordElsewhere(requests: map<nat, Request>, r: nat, row: Request, d: nat)
    requires row.card != Some(d) && r in requests && requests[r].card == row.card
    ensures AwaitsVerification(requests[r := row], d) == AwaitsVerification(requests, d)
  {
    if AwaitsVerification(requests, d) {
      var s :| s in requests && requests[s].status.Open? && requests[s].card == Some(d);
      assert requests[r := row][s] == requests[s];
    }
  }

  // ----- Withdraw -----

  /** Withdrawing leaves every other card exactly as it was. */
  lemma WithdrawnView(db: Db, rs: set<nat>, d: nat)
    requires Shape(db) && OneRequestPerCard(db.requests.rows)
    requires forall r :: r in rs ==> r in db.requests.rows && db.requests.rows[r].status.Open?
    requires d in db.cards.rows && d !in CardsOf(db.requests.rows, rs)
    ensures var after := Withdraw(db, rs); d in after.cards.rows && d in after.log && View(after, d) == View(db, d)
  {
    var gone := CardsOf(db.requests.rows, rs);
    var after := Withdraw(db, rs);
    assert OrdersOn(after.orders.rows, d) == OrdersOn(db.orders.rows, d);
    assert Days(after.meals, d) == Days(db.meals, d) by {
      forall x ensures x in Days(after.meals, d) <==> x in Days(db.meals, d) {
        assert MealKey(d, x) in after.meals <==> MealKey(d, x) in db.meals;
        assert MealKey(d, x) in after.meals <==> x in Days(after.meals, d);
        assert MealKey(d, x) in db.meals <==> x in Days(db.meals, d);
      }
    }
    if AwaitsVerification(db.requests.rows, d) {
      var s :| s in db.requests.rows && db.requests.rows[s].status.Open? && db.requests.rows[s].card == Some(d);
      assert s !in rs;
      assert after.requests.rows[s] == db.requests.rows[s];
    }
  }

  lemma WithdrawRequests(db: Db, rs: set<nat>)
    requires RequestsOk(db.cards.rows, db.requests.rows) && forall r :: r in rs ==>
      r in db.requests.rows && db.requests.rows[r].status.Open?
    ensures RequestsOk(Withdraw(db, rs).cards.rows, Withdraw(db, rs).requests.rows)
  {
    var after := Withdraw(db, rs);
    forall r | r in after.requests.rows
      ensures RequestFits(after.cards.rows, after.requests.rows[r])
      ensures after.requests.rows[r]
        == if r in rs then db.requests.rows[r].(status := Withdrawn, card := None) else db.requests.rows[r]
    {
      assert RequestFits(db.cards.rows, db.requests.rows[r]);
      WithdrawnRow(db, rs, r);
    }
  }

  lemma WithdrawKeeps(db: Db, rs: set<nat>)
    requires Inv(db) && forall r :: r in rs ==> r in db.requests.rows && db.requests.rows[r].status.Open?
    ensures Inv(Withdraw(db, rs))
  {
    hide CardOk;
    var after := Withdraw(db, rs);
    WithdrawRequests(db, rs);
    forall o | o in after.orders.rows ensures OrderLinked(after.cards.rows, after.orders.rows[o]) {
      assert OrderLinked(db.cards.rows, db.orders.rows[o]);
    }
    forall d | d in after.cards.rows ensures CardOk(View(after, d)) {
      WithdrawnView(db, rs, d);
    }
  }

  /** Among requests, withdrawing touches exactly the withdrawn rows. */
  lemma WithdrawnRow(db: Db, rs: set<nat>, r: nat)
    requires OneRequestPerCard(db.requests.rows) && r in db.requests.rows
    requires forall s :: s in rs ==> s in db.requests.rows
    ensures Withdraw(db, rs).requests.rows[r] ==
      if r in rs then db.requests.rows[r].(status := Withdrawn, card := None) else db.requests.rows[r]
  {
    var row := db.requests.rows[r];
    var gone := CardsOf(db.requests.rows, rs);
    if r in rs && row.card.Some? { assert row.card.value in gone; }
    if r !in rs && OnCards(row.card, gone) {
      assert false;
    }
  }

  // ----- Orders -----

  lemma CreateOrderKeeps(db: Db, user: nat, card: Option<nat>, bread: string, filling: string, quantity: int,
      remark: string)
    requires Inv(db) && CreateOrder(db, user, card, bread, filling, quantity, remark).Ok?
    ensures Inv(CreateOrder(db, user, card, bread, filling, quantity, remark).value)
  {
    hide CardOk;
    var after := CreateOrder(db, user, card, bread, filling, quantity, remark).value;
    var o := db.orders.next;
    var row := after.orders.rows[o];
    assert after.orders == db.orders.Insert(row);
    forall p | p in after.orders.rows ensures OrderLinked(after.cards.rows, after.orders.rows[p]) {
      if p != o { assert OrderLinked(db.cards.rows, db.orders.rows[p]); }
    }
    forall d | d in after.cards.rows ensures CardOk(View(after, d)) {
      var v := View(db, d);
      assert CardOk(v);
      OrdersOnPut(db.orders.rows, o, row, d);
      if card == Some(d) {
        PendingOfCard(db, d);
        OrderKeeps(v, row);
        assert View(after, d) == v.(orders := v.orders[v.n := row], n := v.n + 1);
      } else {
        GrowKeeps(v, o + 1);
        assert View(after, d) == v.(n := o + 1);
      }
    }
  }

  /** Changing one order row, given what becomes of the card it is on. */
  lemma SetOrderKeeps(db: Db, o: nat, row: Order)
    requires Shape(db) && RequestsOk(db.cards.rows, db.requests.rows) && OrdersLinked(db.cards.rows, db.orders.rows)
    requires o in db.orders.rows && OrderLinked(db.cards.rows, row)
    requires db.orders.rows[o].card == row.card || db.orders.rows[o].card.None?
    requires forall d :: d in db.cards.rows && row.card != Some(d) ==> CardOk(View(db, d))
    requires row.card.Some? ==>
      CardOk(View(db, row.card.value).(orders := OrdersOn(db.orders.rows, row.card.value)[o := row]))
    ensures Inv(SetOrder(db, o, row))
  {
    hide CardOk;
    var after := SetOrder(db, o, row);
    forall p | p in after.orders.rows ensures OrderLinked(after.cards.rows, after.orders.rows[p]) {
      if p != o { assert OrderLinked(db.cards.rows, db.orders.rows[p]); }
    }
    forall d | d in after.cards.rows ensures CardOk(View(after, d)) {
      OrdersOnPut(db.orders.rows, o, row, d);
    }
  }

  lemma CancelOrderKeepsDb(db: Db, o: nat, actor: nat, staff: bool)
    requires Inv(db) && CancelOrder(db, o, actor, staff).Ok?
    ensures Inv(CancelOrder(db, o, actor, staff).value)
  {
    hide CardOk;
    var was := db.orders.rows[o];
    var row := was.(status := Cancelled(Some(actor)));
    assert OrderLinked(db.cards.rows, was);
    if row.card.Some? {
      var v := View(db, row.card.value);
      assert CardOk(v);
      CancelOrderKeeps(v, o, Some(actor));
    }
    forall d | d in db.cards.rows ensures CardOk(View(db, d)) {}
    SetOrderKeeps(db, o, row);
  }

  // ----- Bookings -----

  /** Booking a line on card `c` leaves every other card alone and appends the line to `c`. */
  lemma BookedView(db: Db, c: nat, line: Line, d: nat)
    requires Shape(db) && c in db.cards.rows && d in db.cards.rows
    ensures var after := Book(db, c, line);
      Shape(after) && View(after, d) == if d == c then Booked(View(db, c), line) else View(db, d)
  {}

  lemma BookKeeps(db: Db, c: nat, line: Line)
    requires Inv(db) && c in db.cards.rows && CardOk(Booked(View(db, c), line))
    ensures Inv(Book(db, c, line))
  {
    hide CardOk;
    var after := Book(db, c, line);
    BookedLinks(db, c, line);
    forall d | d in after.cards.rows ensures CardOk(View(after, d)) {
      BookedView(db, c, line, d);
      assert CardOk(View(db, d));
    }
  }

  lemma BookedLinks(db: Db, c: nat, line: Line)
    requires Inv(db) && c in db.cards.rows
    ensures var after := Book(db, c, line);
      Shape(after) && RequestsOk(after.cards.rows, after.requests.rows) && OrdersLinked(after.cards.rows,
          after.orders.rows)
  {
    hide CardOk;
    var after := Book(db, c, line);
    forall r | r in after.requests.rows ensures RequestFits(after.cards.rows, after.requests.rows[r]) {
      assert RequestFits(db.cards.rows, db.requests.rows[r]);
    }
    forall o | o in after.orders.rows ensures OrderLinked(after.cards.rows, after.orders.rows[o]) {
      assert OrderLinked(db.cards.rows, db.orders.rows[o]);
    }
  }

  lemma UseKnipjeKeeps(db: Db, c: nat, actor: Option<Actor>)
    requires Inv(db) && UseKnipje(db, c, actor).Ok?
    ensures Inv(UseKnipje(db, c, actor).value)
  {
    hide CardOk;
    var v := View(db, c);
    assert CardOk(v);
    PunchKeeps(v, actor.value.id);
    BookKeeps(db, c, PunchLine(v.card, actor.value.id));
  }

  lemma SetEstimateKeeps(db: Db, c: nat, value: int, actor: nat)
    requires Inv(db) && SetEstimate(db, c, value, actor).Ok?
    ensures Inv(SetEstimate(db, c, value, actor).value)
  {
    hide CardOk;
    var v := View(db, c);
    assert CardOk(v);
    EstimateKeeps(v, value, actor);
    BookKeeps(db, c, EstimateLine(v.card, value, actor));
  }

  /** What a successful delivery on card `c` has established. */
  lemma DeliveryAdmitted(db: Db, o: nat, found: Option<nat>, who: nat, c: nat)
    requires Inv(db) && DeliverOn(db, o, found, who).Ok?
    requires (if db.orders.rows[o].card.Some? then db.orders.rows[o].card else found) == Some(c)
    ensures c in db.cards.rows && Deliverable(View(db, c), o, db.orders.rows[o])
  {
    hide CardOk;
    var row := db.orders.rows[o];
    var v := View(db, c);
    assert CardOk(v);
    if row.card.Some? {
      CardOrderFits(v, o);
    } else {
      assert IsPhysicalTosti(db.cards.rows[c], row.user);
      assert o !in v.orders;
      if v.open { OpenMeansUntouched(v); }
      assert OrderLinked(db.cards.rows, row);
    }
  }

  lemma DeliverKeepsDb(db: Db, o: nat, who: nat)
    requires Inv(db) && Deliver(db, o, who).Ok?
    ensures Inv(Deliver(db, o, who).value)
  {
    hide Inv, DeliverOn;
    DeliverOnKeeps(db, o, FindPhysicalTostiCard(db.cards, db.orders.rows[o].user), who);
  }

  /** Whichever physical card the search found, and even if it found none, the delivery keeps the invariant. */
  lemma DeliverOnKeeps(db: Db, o: nat, found: Option<nat>, who: nat)
    requires Inv(db) && DeliverOn(db, o, found, who).Ok?
    ensures Inv(DeliverOn(db, o, found, who).value)
  {
    hide CardOk;
    var row := db.orders.rows[o];
    var settled := if row.card.Some? then row.card else found;
    var done := row.(status := Delivered(Some(who)));
    assert OrderLinked(db.cards.rows, row);
    forall d | d in db.cards.rows ensures CardOk(View(db, d)) {}
    if settled.None? {
      SetOrderKeeps(db, o, done);
    } else {
      var c := settled.value;
      DeliveryAdmitted(db, o, found, who, c);
      var v := View(db, c);
      var line := DeliveryLine(v.card, o, row.quantity, who);
      DeliverKeeps(v, c, o, row, who);
      var booked := Book(db, c, line);
      BookedLinks(db, c, line);
      forall d | d in db.cards.rows
        ensures View(booked, d) == if d == c then Booked(v, line) else View(db, d)
      {
        BookedView(db, c, line, d);
      }
      SetOrderKeeps(booked, o, DeliveredRow(row, c, who));
    }
  }

  // ----- Meals -----

  lemma MealDays(db: Db, cs: set<nat>, day: int, who: nat, c: nat)
    requires forall c :: c in cs ==> c in db.cards.rows
    ensures Days(BookMeals(db, cs, day, who).meals, c)
      == if c in cs then Days(db.meals, c) + {day} else Days(db.meals, c)
  {
    var after := BookMeals(db, cs, day, who);
    forall d ensures d in Days(after.meals, c) <==> d in Days(db.meals, c) || (c in cs && d == day) {
      assert MealKey(c, d) in after.meals <==> d in Days(after.meals, c);
      assert MealKey(c, d) in db.meals <==> d in Days(db.meals, c);
    }
  }

  lemma MealsView(db: Db, cs: set<nat>, day: int, who: nat, c: nat)
    requires Shape(db) && (forall c :: c in cs ==> c in db.cards.rows) && c in db.cards.rows
    ensures var after := BookMeals(db, cs, day, who);
      && c in after.cards.rows && c in after.log
      && View(after, c) ==
           if c in cs then Booked(View(db, c), MealLine(db.cards.rows[c], day, who)).(days := Days(db.meals, c) + {day})
                           else View(db, c)
  {
    MealDays(db, cs, day, who, c);
  }

  lemma RegisterMealsKeeps(db: Db, ids: seq<int>, day: int, who: nat)
    requires Inv(db) && RegisterMeals(db, ids, day, who).Ok?
    ensures Inv(RegisterMeals(db, ids, day, who).value)
  {
    hide CardOk;
    var cs := Selected(ids);
    FirstRefusalNone(db, ids, day);
    var after := BookMeals(db, cs, day, who);
    assert forall c :: c in cs ==> MealError(db, c, day).None?;
    MealLinks(db, cs, day, who);
    hide RequestsOk, OrdersLinked;
    forall c | c in after.cards.rows ensures CardOk(View(after, c)) {
      MealsView(db, cs, day, who, c);
      if c in cs {
        assert MealError(db, c, day).None?;
        assert day in Days(db.meals, c) ==> MealKey(c, day) in db.meals;
        MealKeeps(View(db, c), day, who);
      }
    }
  }

  lemma MealLinks(db: Db, cs: set<nat>, day: int, who: nat)
    requires Shape(db) && RequestsOk(db.cards.rows, db.requests.rows) && OrdersLinked(db.cards.rows, db.orders.rows)
    requires forall c :: c in cs ==> c in db.cards.rows
    ensures var after := BookMeals(db, cs, day, who);
      Shape(after) && RequestsOk(after.cards.rows, after.requests.rows) && OrdersLinked(after.cards.rows,
          after.orders.rows)
  {
    var after := BookMeals(db, cs, day, who);
    forall r | r in after.requests.rows ensures RequestFits(after.cards.rows, after.requests.rows[r]) {
      assert RequestFits(db.cards.rows, db.requests.rows[r]);
    }
    forall o | o in after.orders.rows ensures OrderLinked(after.cards.rows, after.orders.rows[o]) {
      assert OrderLinked(db.cards.rows, db.orders.rows[o]);
    }
  }

  // ----- Undo -----

  lemma UndoView(db: Db, c: nat, i: nat, actor: nat, d: nat)
    requires Shape(db) && d in db.cards.rows && UndoLineAt(db, c, i, actor).Ok?
    ensures var after := UndoLineAt(db, c, i, actor).value;
      && d in after.cards.rows && d in after.log
      && View(after, d) == if d == c then AfterUndo(View(db, c), i, actor) else View(db, d)
  {
    var line := db.log[c][i];
    if line.meal.Some? { DaysDrop(db.meals, MealKey(c, line.meal.value), d); }
  }

  lemma UndoKeepsDb(db: Db, c: nat, i: nat, actor: nat)
    requires Inv(db) && UndoLineAt(db, c, i, actor).Ok?
    ensures Inv(UndoLineAt(db, c, i, actor).value)
  {
    hide CardOk;
    var after := UndoLineAt(db, c, i, actor).value;
    forall r | r in after.requests.rows ensures RequestFits(after.cards.rows, after.requests.rows[r]) {
      assert RequestFits(db.cards.rows, db.requests.rows[r]);
    }
    forall o | o in after.orders.rows ensures OrderLinked(after.cards.rows, after.orders.rows[o]) {
      assert OrderLinked(db.cards.rows, db.orders.rows[o]);
    }
    forall d | d in after.cards.rows ensures CardOk(View(after, d)) {
      UndoView(db, c, i, actor, d);
      if d == c { UndoKeeps(View(db, c), i, actor); }
    }
  }

  lemma SaveUserKeeps(db: Db, user: Option<nat>, row: User)
    requires Inv(db) && SaveUser(db, user, row).Ok?
    ensures Inv(SaveUser(db, user, row).value)
  {
    hide CardOk;
    var after := SaveUser(db, user, row).value;
    forall d | d in after.cards.rows ensures CardOk(View(after, d)) {
      assert View(after, d) == View(db, d);
    }
  }
}
