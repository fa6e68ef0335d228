/** The invariant of the whole database, and the projection of the database onto one card. */
module Invariant {
  import opened Prelude
  import opened Journal
  import opened Ledger
  import opened CardBook

  function Days(meals: map<MealKey, Option<nat>>, c: nat): set<int> {
    set k | k in meals && k.card == c :: k.day
  }

  function OrdersOn(orders: map<nat, Order>, c: nat): map<nat, Order> {
    map o | o in orders && orders[o].card == Some(c) :: orders[o]
  }

  function View(db: Db, c: nat): CardView
    requires c in db.cards.rows && c in db.log
  {
    CardView(db.cards.rows[c], db.log[c], Days(db.meals, c), OrdersOn(db.orders.rows, c),
             AwaitsVerification(db.requests.rows, c), db.orders.next)
  }

  ghost predicate Shape(db: Db) {
    && db.users.Valid() && db.cards.Valid() && db.requests.Valid() && db.orders.Valid()
    && db.log.Keys == db.cards.rows.Keys
    && forall k :: k in db.meals ==> k.card in db.cards.rows
  }

  /** A request agrees with its card; a sale keeps its card; a withdrawn request has none; sales and only sales have a
      price. */
  ghost predicate RequestFits(cards: map<nat, Card>, row: Request) {
    && row.trustUsed <= FULL_CARD
    && (row.card.Some? ==>
          row.card.value in cards && cards[row.card.value].owner == row.user && cards[row.card.value].kind == row.kind)
    && (row.status.Fulfilled? ==> row.card.Some?)
    && (row.status.Withdrawn? ==> row.card.None?)
    && (row.price.Some? <==> row.status.Fulfilled?)
  }

  ghost predicate OneRequestPerCard(requests: map<nat, Request>) {
    forall r, s :: r in requests && s in requests && requests[r].card.Some? && requests[r].card == requests[s].card ==>
      r == s
  }

  ghost predicate RequestsOk(cards: map<nat, Card>, requests: map<nat, Request>) {
    && (forall r :: r in requests ==> RequestFits(cards, requests[r]))
    && OneRequestPerCard(requests)
    && OneOpenPerKind(requests)
  }

  ghost predicate OrderLinked(cards: map<nat, Card>, row: Order) {
    && (row.card.Some? ==> row.card.value in cards)
    && QUANTITY_MIN <= row.quantity <= QUANTITY_MAX
  }

  ghost predicate OrdersLinked(cards: map<nat, Card>, orders: map<nat, Order>) {
    forall o :: o in orders ==> OrderLinked(cards, orders[o])
  }

  ghost predicate CardsOk(db: Db)
    requires Shape(db)
  {
    forall c :: c in db.cards.rows ==> CardOk(View(db, c))
  }

  ghost predicate Inv(db: Db) {
    && Shape(db)
    && RequestsOk(db.cards.rows, db.requests.rows)
    && OrdersLinked(db.cards.rows, db.orders.rows)
    && CardsOk(db)
  }

  // ----- How the projection moves -----

  lemma DaysDrop(meals: map<MealKey, Option<nat>>, k: MealKey, c: nat)
    ensures Days(meals - {k}, c) == if k.card == c then Days(meals, c) - {k.day} else Days(meals, c)
  {
    var after := meals - {k};
    forall d ensures d in Days(after, c) <==> d in Days(meals, c) && !(k.card == c && d == k.day) {
      assert MealKey(c, d) in after <==> d in Days(after, c);
      assert MealKey(c, d) in meals <==> d in Days(meals, c);
    }
  }

  lemma OrdersOnPut(orders: map<nat, Order>, o: nat, row: Order, c: nat)
    requires o in orders ==> orders[o].card == row.card || orders[o].card.None?
    ensures OrdersOn(orders[o := row], c) == if row.card
      == Some(c) then OrdersOn(orders, c)[o := row] else OrdersOn(orders, c)
  {}

  lemma AwaitsPut(requests: map<nat, Request>, r: nat, row: Request, c: nat)
    requires r !in requests
    ensures AwaitsVerification(requests[r := row], c) <==>
      AwaitsVerification(requests, c) || (row.status.Open? && row.card == Some(c))
  {
    var after := requests[r := row];
    if AwaitsVerification(requests, c) {
      var s :| s in requests && requests[s].status.Open? && requests[s].card == Some(c);
      assert after[s] == requests[s];
    }
    if row.status.Open? && row.card == Some(c) { assert after[r] == row; }
  }

  /** The sum that admission reads is the sum over the card's own orders. */
  lemma PendingOfCard(db: Db, c: nat)
    requires Inv(db) && c in db.cards.rows
    ensures Total(db.orders.rows, PendingOf(db.cards.rows[c].owner, c), db.orders.next)
         == Total(View(db, c).orders, PendingQuantity, db.orders.next)
  {
    var v := View(db, c);
    var user := db.cards.rows[c].owner;
    hide CardOk;
    assert CardOk(v);
    forall o: nat | o < v.n ensures Share(db.orders.rows, PendingOf(user, c), o)
      == Share(v.orders, PendingQuantity, o) {
      if o in v.orders { CardOrderFits(v, o); }
    }
    TotalCongruent(db.orders.rows, PendingOf(user, c), v.orders, PendingQuantity, v.n);
  }
}
