/** When each operation of the card administration succeeds and what it leaves behind, said of the rows themselves. */
module Effects {
  import opened Prelude
  import opened Journal
  import opened Ledger
  import opened CardBook
  import opened Invariant
  import opened Preservation
  import opened Runs
  import opened Reservations

  // ----- What a row shows -----

  /** No open request waits for payment of card `c`. */
  ghost predicate Paid(db: Db, c: nat) {
    forall r :: r in db.requests.rows && db.requests.rows[r].card == Some(c) ==> !db.requests.rows[r].status.Open?
  }

  /** A buyer may ask for a card: avondeten is for the matroos youth, and one open request per kind. */
  ghost predicate MayBuy(db: Db, user: nat, kind: Kind) {
    && user in db.users.rows
    && (kind == Tosti || db.users.rows[user].matroos)
    && !Claims(db, user, kind)
  }

  ghost predicate Claims(db: Db, user: nat, kind: Kind) {
    exists r :: r in db.requests.rows && db.requests.rows[r].status.Open?
      && db.requests.rows[r].user == user && db.requests.rows[r].kind == kind
  }

  /** A physical tostikaart of the user. */
  ghost predicate Paper(cards: map<nat, Card>, user: nat, c: nat) {
    c in cards && cards[c].owner == user && cards[c].kind == Tosti && cards[c].source == Physical
  }

  /** Tables and columns that a change of one balance has nothing to do with. */
  ghost predicate SameElsewhere(db: Db, after: Db) {
    after.users == db.users && after.requests == db.requests && after.books == db.books
  }

  /** Card `c` went to balance `b`, which log line `l` records; no other card and no other log changed. */
  ghost predicate Booked(db: Db, after: Db, c: nat, b: int, l: Line) {
    && c in db.cards.rows && c in db.log
    && after.cards == db.cards.(rows := db.cards.rows[c := db.cards.rows[c].(knipjes := b)])
    && after.log == db.log[c := db.log[c] + [l]]
    && l.balanceAfter == b && l.delta == b - db.cards.rows[c].knipjes
  }

  /** One card more, with the next id and its issued line. */
  ghost predicate Issues(db: Db, after: Db, card: Card, actor: Option<nat>) {
    && after.cards == Table(db.cards.rows[db.cards.next := card], db.cards.next + 1)
    && after.log == db.log[db.cards.next :=
         [Line(card.knipjes, card.knipjes, Reason.Issued, actor, None, None, None, None)]]
  }

  lemma PaidExactly(db: Db, c: nat)
    ensures AwaitsVerification(db.requests.rows, c) <==> !Paid(db, c)
  {}

  // ----- Requests and sales -----

  lemma BuyerExactly(db: Db, user: nat, kind: Kind)
    ensures BuyerError(db, user, kind) ==
      if user !in db.users.rows then Some(NotFound)
      else if kind == Avondeten && !db.users.rows[user].matroos then Some(Forbidden)
      else if Claims(db, user, kind) then Some(AlreadyPending) else None
    ensures BuyerError(db, user, kind).None? <==> MayBuy(db, user, kind)
  {}

  /** A request is accepted from whoever may buy. It issues an online card of ten knipjes that is not paid yet, and each
      refusal has its own cause. */
  lemma RequestEffect(db: Db, user: nat, kind: Kind)
    ensures RequestCard(db, user, kind).Ok? <==> MayBuy(db, user, kind)
    ensures RequestCard(db, user, kind) == Err(NotFound) <==> user !in db.users.rows
    ensures RequestCard(db, user, kind) == Err(Forbidden) <==>
      user in db.users.rows && kind == Avondeten && !db.users.rows[user].matroos
    ensures RequestCard(db, user, kind).Ok? ==>
      var after := RequestCard(db, user, kind).value;
      && Issues(db, after, Card(user, kind, Online, 10), None)
      && after.requests == Table(db.requests.rows[db.requests.next :=
           Request(user, kind, Open, Some(db.cards.next), 0, None)], db.requests.next + 1)
      && after == db.(cards := after.cards, log := after.log, requests := after.requests)
  {
    BuyerExactly(db, user, kind);
  }

  /** What a sale over the counter writes. */
  ghost predicate SoldOnPaper(db: Db, after: Db, buyer: nat, seller: nat, kind: Kind, price: int, month: int) {
    && Issues(db, after, Card(buyer, kind, Physical, 10), Some(seller))
    && after.requests == Table(db.requests.rows[db.requests.next :=
         Request(buyer, kind, Fulfilled(Some(seller), month), Some(db.cards.next), 0, Some(price))],
         db.requests.next + 1)
    && after == db.(cards := after.cards, log := after.log, requests := after.requests)
  }

  /** A sale over the counter is refused for the same reasons as a request; it issues a physical card of ten knipjes and
      records the sale with its price. Its writes alone need only the buyer. */
  lemma SaleEffect(db: Db, buyer: nat, seller: nat, kind: Kind, price: int, month: int)
    ensures SellPhysical(db, buyer, seller, kind, price, month).Ok? <==> MayBuy(db, buyer, kind)
    ensures SellPhysical(db, buyer, seller, kind, price, month).Ok? ==>
      SoldOnPaper(db, SellPhysical(db, buyer, seller, kind, price, month).value, buyer, seller, kind, price, month)
    ensures PlaceSale(db, buyer, seller, kind, price, month).Ok? <==> buyer in db.users.rows
    ensures PlaceSale(db, buyer, seller, kind, price, month).Ok? ==>
      SoldOnPaper(db, PlaceSale(db, buyer, seller, kind, price, month).value, buyer, seller, kind, price, month)
  {
    BuyerExactly(db, buyer, kind);
  }

  /** An open request, and no other, can be fulfilled. It becomes a sale of that price in that month, on the card it
      has; one from before cards were issued on request gets a card with the knipjes that were not used on trust. */
  lemma FulfilEffect(db: Db, r: nat, admin: nat, price: int, month: int)
    ensures Fulfil(db, r, admin, price, month).Ok? <==>
      r in db.requests.rows && db.requests.rows[r].status == Open
    ensures Fulfil(db, r, admin, price, month) == Err(NotFound) <==> r !in db.requests.rows
    ensures Fulfil(db, r, admin, price, month).Ok? ==>
      var after, row := Fulfil(db, r, admin, price, month).value, db.requests.rows[r];
      var card := if row.card.Some? then row.card.value else db.cards.next;
      && after.requests == Table(db.requests.rows[r :=
           Request(row.user, row.kind, Fulfilled(Some(admin), month), Some(card), row.trustUsed, Some(price))],
           db.requests.next)
      && (row.card.Some? ==> after.cards == db.cards && after.log == db.log)
      && (row.card.None? ==> Issues(db, after, Card(row.user, row.kind, Online, 10 - row.trustUsed), Some(admin)))
      && after == db.(cards := after.cards, log := after.log, requests := after.requests)
  {}

  // ----- Withdrawals -----

  /** One of the requests `rs` holds card `c`. */
  ghost predicate Held(db: Db, rs: set<nat>, c: Option<nat>) {
    c.Some? && exists r :: r in rs && r in db.requests.rows && db.requests.rows[r].card == c
  }

  /** The requests `rs` are cancelled and have lost their cards; with those cards went their orders, meals and logs;
      every other row is as it was. */
  ghost predicate Withdrew(db: Db, after: Db, rs: set<nat>) {
    && after.users == db.users && after.books == db.books
    && after.cards.next == db.cards.next && after.requests.next == db.requests.next
    && after.orders.next == db.orders.next
    && after.requests.rows.Keys == db.requests.rows.Keys
    && (forall r :: r in db.requests.rows ==>
          after.requests.rows[r]
            == if r in rs then db.requests.rows[r].(status := Withdrawn, card := None) else db.requests.rows[r])
    && (forall c: nat :: c in after.cards.rows <==> c in db.cards.rows && !Held(db, rs, Some(c)))
    && (forall c :: c in after.cards.rows ==> after.cards.rows[c] == db.cards.rows[c])
    && (forall c: nat :: c in after.log <==> c in db.log && !Held(db, rs, Some(c)))
    && (forall c :: c in after.log ==> after.log[c] == db.log[c])
    && (forall o: nat :: o in after.orders.rows <==> o in db.orders.rows && !Held(db, rs, db.orders.rows[o].card))
    && (forall o :: o in after.orders.rows ==> after.orders.rows[o] == db.orders.rows[o])
    && (forall k :: k in after.meals <==> k in db.meals && !Held(db, rs, Some(k.card)))
    && (forall k :: k in after.meals ==> after.meals[k] == db.meals[k])
  }

  lemma WithdrawEffect(db: Db, rs: set<nat>)
    requires OneRequestPerCard(db.requests.rows) && forall r :: r in rs ==> r in db.requests.rows
    ensures Withdrew(db, Withdraw(db, rs), rs)
  {
    var gone := CardsOf(db.requests.rows, rs);
    forall c: Option<nat> ensures OnCards(c, gone) <==> Held(db, rs, c) {
      HeldExactly(db, rs, c);
    }
    forall c: nat ensures c in gone <==> Held(db, rs, Some(c)) {
      assert OnCards(Some(c), gone) <==> c in gone;
    }
    forall r | r in db.requests.rows ensures Withdraw(db, rs).requests.rows[r]
      == if r in rs then db.requests.rows[r].(status := Withdrawn, card := None) else db.requests.rows[r]
    {
      WithdrawnRow(db, rs, r);
    }
    hide CardsOf, OnCards, Held;
    TablesWithdrawn(db, rs, gone);
  }

  lemma HeldExactly(db: Db, rs: set<nat>, c: Option<nat>)
    ensures OnCards(c, CardsOf(db.requests.rows, rs)) <==> Held(db, rs, c)
  {}

  lemma TablesWithdrawn(db: Db, rs: set<nat>, gone: set<nat>)
    requires gone == CardsOf(db.requests.rows, rs)
    ensures var after := Withdraw(db, rs);
      && after.cards.rows == (map c | c in db.cards.rows && c !in gone :: db.cards.rows[c])
      && after.log == (map c | c in db.log && c !in gone :: db.log[c])
      && after.meals == (map k | k in db.meals && k.card !in gone :: db.meals[k])
      && after.orders.rows
         == (map o | o in db.orders.rows && !OnCards(db.orders.rows[o].card, gone) :: db.orders.rows[o])
      && after.requests.rows.Keys == db.requests.rows.Keys
      && after.(cards := db.cards, log := db.log, meals := db.meals, orders := db.orders, requests := db.requests) == db
      && after.cards.next == db.cards.next && after.orders.next == db.orders.next
      && after.requests.next == db.requests.next
  {}

  /** Rejecting cancels that request alone; cancelling does so for the member's own request; cancel-all cancels every
      open request of the member and no other. */
  lemma WithdrawalEffect(db: Db, r: nat, user: nat)
    requires Inv(db)
    ensures Reject(db, r).Ok? ==> Withdrew(db, Reject(db, r).value, {r})
    ensures CancelRequest(db, r, user).Ok? ==> Withdrew(db, CancelRequest(db, r, user).value, {r})
    ensures CancelAll(db, user).Ok? ==> Withdrew(db, CancelAll(db, user).value,
      set s | s in db.requests.rows && db.requests.rows[s].status == Open && db.requests.rows[s].user == user)
  {
    hide CardsOk, Withdraw, Withdrew;
    if r in db.requests.rows { WithdrawEffect(db, {r}); }
    var all := set s | s in db.requests.rows && db.requests.rows[s].status == Open && db.requests.rows[s].user == user;
    assert OpenOf(db.requests.rows, user) == all;
    WithdrawEffect(db, all);
  }

  // ----- Orders -----

  /** The tosti exists on the menu. */
  ghost predicate OnMenu(bread: string, filling: string) {
    bread in {"wit", "bruin"} && filling in {"ham", "kaas", "ham_kaas"}
  }

  /** An online tosti card of the member. */
  ghost predicate TostiCardOf(db: Db, user: nat, c: nat) {
    && c in db.cards.rows && db.cards.rows[c].owner == user
    && db.cards.rows[c].kind == Tosti && db.cards.rows[c].source == Online
  }

  /** There is room for `quantity` beside everything already ordered on the card. */
  ghost predicate HasRoom(db: Db, c: nat, quantity: int)
    requires c in db.cards.rows
  {
    OpenQuantity(db, c) + quantity <= db.cards.rows[c].knipjes
  }

  /** The order row as written. */
  ghost predicate Orders(row: Order, user: nat, card: Option<nat>, bread: string, filling: string, quantity: int,
      remark: string)
  {
    && row.user == user && row.card == card && row.quantity == quantity && row.remark == remark && row.status == Pending
    && (bread == "wit" <==> row.bread == Wit) && (bread == "bruin" <==> row.bread == Bruin)
    && (filling == "ham" <==> row.filling == Ham) && (filling == "kaas" <==> row.filling == Kaas)
    && (filling == "ham_kaas" <==> row.filling == HamKaas)
  }

  /** An order is accepted exactly when it is on the menu, of one to ten pieces, with a remark of at most 500
      characters, and without a card or within what is left on the member's online tosti card. It is written as it was
      placed. */
  lemma OrderEffect(db: Db, user: nat, card: Option<nat>, bread: string, filling: string, quantity: int,
      remark: string)
    requires Inv(db)
    ensures CreateOrder(db, user, card, bread, filling, quantity, remark).Ok? <==>
      && |remark| <= 500 && 1 <= quantity <= 10 && OnMenu(bread, filling)
      && (card.Some? ==> TostiCardOf(db, user, card.value) && HasRoom(db, card.value, quantity))
    ensures CreateOrder(db, user, card, bread, filling, quantity, remark) == Err(NoKnipjes) <==>
      && |remark| <= 500 && 1 <= quantity <= 10 && OnMenu(bread, filling)
      && card.Some? && TostiCardOf(db, user, card.value) && !HasRoom(db, card.value, quantity)
    ensures CreateOrder(db, user, card, bread, filling, quantity, remark).Ok? ==>
      var after := CreateOrder(db, user, card, bread, filling, quantity, remark).value;
      && after == db.(orders := after.orders)
      && after.orders.next == db.orders.next + 1
      && after.orders.rows.Keys == db.orders.rows.Keys + {db.orders.next}
      && (forall o :: o in db.orders.rows ==> after.orders.rows[o] == db.orders.rows[o])
      && Orders(after.orders.rows[db.orders.next], user, card, bread, filling, quantity, remark)
  {
    hide Inv;
    TablesFit(db);
    if card.Some? && card.value in db.cards.rows { PendingOfAll(db, card.value); }
  }

  /** A pending order is cancelled by its owner or by staff, and only that order changes. */
  lemma CancelOrderEffect(db: Db, o: nat, actor: nat, staff: bool)
    ensures CancelOrder(db, o, actor, staff).Ok? <==>
      o in db.orders.rows && db.orders.rows[o].status == Pending && (staff || db.orders.rows[o].user == actor)
    ensures CancelOrder(db, o, actor, staff).Ok? ==>
      CancelOrder(db, o, actor, staff).value == db.(orders := db.orders.(rows := db.orders.rows[o :=
        db.orders.rows[o].(status := Cancelled(Some(actor)))]))
  {}

  // ----- Deliveries -----

  /** The card that a cardless delivery is booked on: of the member's physical tosti cards the oldest with an estimate
      left, otherwise the newest; none if the member has no such card. */
  ghost predicate Settles(cards: map<nat, Card>, user: nat, found: Option<nat>) {
    match found
    case None => forall d: nat :: !Paper(cards, user, d)
    case Some(c) =>
      && Paper(cards, user, c)
      && (if cards[c].knipjes > 0 then forall d: nat :: Paper(cards, user, d) && d < c ==> cards[d].knipjes <= 0
          else forall d: nat :: Paper(cards, user, d) ==> cards[d].knipjes <= 0 && d <= c)
  }

  /** The search finds that card, and there is only one such card to find. */
  lemma SearchEffect(cards: Table<Card>, user: nat, other: Option<nat>)
    requires cards.Valid()
    ensures Settles(cards.rows, user, FindPhysicalTostiCard(cards, user))
    ensures Settles(cards.rows, user, other) ==> other == FindPhysicalTostiCard(cards, user)
  {}

  /** An order with a card of its own can be charged on it: the member's tosti card, and if it is an online card, paid
      and with enough knipjes. */
  ghost predicate Chargeable(db: Db, row: Order, c: nat) {
    && c in db.cards.rows && db.cards.rows[c].owner == row.user && db.cards.rows[c].kind == Tosti
    && (db.cards.rows[c].source == Online ==> Paid(db, c) && row.quantity <= db.cards.rows[c].knipjes)
  }

  /** The order can be delivered as far as its own row goes. */
  ghost predicate Waiting(db: Db, o: nat) {
    o in db.orders.rows && db.orders.rows[o].status == Pending && 1 <= db.orders.rows[o].quantity <= 10
  }

  /** The order is to be booked on an online tosti card of its owner. */
  ghost predicate OnlineOrder(db: Db, row: Order) {
    row.card.Some? && TostiCardOf(db, row.user, row.card.value)
  }

  /** A delivery succeeds exactly for a pending order of one to ten pieces that has no card or can be charged on its
      card: a physical card never stands in the way. An unpaid card and too few knipjes are told apart. */
  lemma DeliverySucceeds(db: Db, o: nat, who: nat)
    requires db.cards.Valid()
    ensures Deliver(db, o, who).Ok? <==>
      && Waiting(db, o)
      && (db.orders.rows[o].card.Some? ==> Chargeable(db, db.orders.rows[o], db.orders.rows[o].card.value))
    ensures Deliver(db, o, who) == Err(OrderNotPending) <==> o in db.orders.rows && db.orders.rows[o].status != Pending
    ensures Deliver(db, o, who) == Err(CardNotVerified) <==>
      Waiting(db, o) && OnlineOrder(db, db.orders.rows[o]) && !Paid(db, db.orders.rows[o].card.value)
    ensures Deliver(db, o, who) == Err(NoKnipjes) <==>
      && Waiting(db, o) && OnlineOrder(db, db.orders.rows[o]) && Paid(db, db.orders.rows[o].card.value)
      && db.cards.rows[db.orders.rows[o].card.value].knipjes < db.orders.rows[o].quantity
  {
    if o in db.orders.rows { SearchEffect(db.cards, db.orders.rows[o].user, None); }
    hide FindPhysicalTostiCard;
    forall c: nat ensures AwaitsVerification(db.requests.rows, c) <==> !Paid(db, c) { PaidExactly(db, c); }
    hide AwaitsVerification, Paid;
  }

  function AtLeastZero(b: int): int { if b < 0 then 0 else b }

  /** What a delivery leaves behind: the order is delivered and linked to the card it was booked on, that card and no
      other goes to max(0, balance - quantity), and one log line says so. Without a card only the order changes. */
  ghost predicate Delivers(db: Db, after: Db, o: nat, charged: Option<nat>, who: nat)
    requires o in db.orders.rows
  {
    var row := db.orders.rows[o];
    && SameElsewhere(db, after) && after.meals == db.meals
    && after.orders == db.orders.(rows := db.orders.rows[o := row.(status := Delivered(Some(who)), card := charged)])
    && match charged
       case None => after.cards == db.cards && after.log == db.log
       case Some(c) =>
         && c in db.cards.rows
         && var was := db.cards.rows[c].knipjes;
            var b := AtLeastZero(was - row.quantity);
            Booked(db, after, c, b, Line(b - was, b, TostiDelivered, Some(who), Some(o), None, None, None))
  }

  /** Whatever a search has come up with, an order with a card of its own is booked on that card. */
  lemma SettleEffect(db: Db, o: nat, found: Option<nat>, who: nat)
    requires Shape(db) && DeliverOn(db, o, found, who).Ok?
    ensures o in db.orders.rows
    ensures Delivers(db, DeliverOn(db, o, found, who).value, o,
      if db.orders.rows[o].card.Some? then db.orders.rows[o].card else found, who)
  {
    hide AwaitsVerification;
  }

  /** An order with a card is booked on that card; one without is booked on the physical card that settles it. */
  lemma DeliveryEffect(db: Db, o: nat, who: nat)
    requires Shape(db) && Deliver(db, o, who).Ok?
    ensures o in db.orders.rows
    ensures var row, after := db.orders.rows[o], Deliver(db, o, who).value;
      && o in after.orders.rows
      && Delivers(db, after, o, after.orders.rows[o].card, who)
      && (row.card.Some? ==> after.orders.rows[o].card == row.card)
      && (row.card.None? ==> Settles(db.cards.rows, row.user, after.orders.rows[o].card))
  {
    hide Settles, DeliverOn, FindPhysicalTostiCard;
    var found := FindPhysicalTostiCard(db.cards, db.orders.rows[o].user);
    SearchEffect(db.cards, db.orders.rows[o].user, None);
    SettleEffect(db, o, found, who);
  }

  // ----- Punches, meals, undo, estimates -----

  /** Admin or operator punches one knipje off a paid online card that has one left; that card loses it, and nothing
      else changes. */
  lemma PunchEffect(db: Db, c: nat, actor: Option<Actor>)
    requires Shape(db)
    ensures UseKnipje(db, c, actor).Ok? <==>
      && actor.Some? && (actor.value.admin || actor.value.operator)
      && c in db.cards.rows && db.cards.rows[c].source == Online && db.cards.rows[c].knipjes >= 1 && Paid(db, c)
    ensures UseKnipje(db, c, actor).Ok? ==>
      var after, b := UseKnipje(db, c, actor).value, db.cards.rows[c].knipjes - 1;
      && Booked(db, after, c, b, Line(-1, b, ManualKnipje, Some(actor.value.id), None, None, None, None))
      && SameElsewhere(db, after) && after.meals == db.meals && after.orders == db.orders
  {
    PaidExactly(db, c);
    hide AwaitsVerification, Paid;
  }

  /** The card can take a meal on that day. */
  ghost predicate Eats(db: Db, c: nat, day: int) {
    && c in db.cards.rows && db.cards.rows[c].kind == Avondeten && db.cards.rows[c].knipjes >= 1
    && Paid(db, c) && MealKey(c, day) !in db.meals
  }

  /** The batch succeeds exactly when every positive id on the list can take a meal. Each of those cards,
      however often it is listed, loses one knipje, gains one meal recorded by `who` and one log line; all other
      rows are as before. */
  lemma MealsEffect(db: Db, ids: seq<int>, day: int, who: nat)
    requires Shape(db)
    ensures RegisterMeals(db, ids, day, who).Ok? <==> forall c: nat :: c in ids && c > 0 ==> Eats(db, c, day)
    ensures RegisterMeals(db, ids, day, who).Ok? ==>
      var after := RegisterMeals(db, ids, day, who).value;
      && SameElsewhere(db, after) && after.orders == db.orders && after.cards.next == db.cards.next
      && after.cards.rows.Keys == db.cards.rows.Keys && after.log.Keys == db.log.Keys
      && (forall c :: c in db.cards.rows ==> var was := db.cards.rows[c].knipjes;
            if c in ids && c > 0 then
              && after.cards.rows[c] == db.cards.rows[c].(knipjes := was - 1)
              && after.log[c] == db.log[c] + [Line(-1, was - 1, AvondetenMeal, Some(who), None, Some(day), None, None)]
            else after.cards.rows[c] == db.cards.rows[c] && after.log[c] == db.log[c])
      && (forall k :: k in after.meals <==> k in db.meals || (k.day == day && k.card in ids && k.card > 0))
      && (forall k :: k in after.meals ==>
            after.meals[k] == if k.day == day && k.card in ids && k.card > 0 then Some(who) else db.meals[k])
  {
    FirstRefusalNone(db, ids, day);
    forall c ensures MealError(db, c, day).None? <==> Eats(db, c, day) {
      PaidExactly(db, c);
    }
    hide FirstRefusal, MealError, Eats, AwaitsVerification;
    assert forall c :: c in Selected(ids) <==> c in ids && c > 0;
    hide Selected;
  }

  /** A line can be undone exactly once, and exactly when it took or gave knipjes by a delivery, a meal, a punch or a
      corrected estimate and the card can hold what results. */
  lemma UndoSucceeds(db: Db, c: nat, i: nat, actor: nat)
    requires c in db.cards.rows && c in db.log && i < |db.log[c]|
    ensures UndoLineAt(db, c, i, actor).Ok? <==>
      var line := db.log[c][i];
      && line.reason in {TostiDelivered, AvondetenMeal, ManualKnipje, EstimateAdjust}
      && line.reversedBy.None? && line.delta != 0 && 0 <= db.cards.rows[c].knipjes - line.delta <= 10
    ensures UndoLineAt(db, c, i, actor) == Err(TxAlreadyUndone) <==>
      db.log[c][i].reversedBy.Some?
        && db.log[c][i].reason in {TostiDelivered, AvondetenMeal, ManualKnipje, EstimateAdjust}
  {}

  /** The knipjes go back to the card, the undone line points at the line that undid it, and its meal is free again. No
      other card, log or meal changes, and no order does. */
  lemma UndoEffect(db: Db, c: nat, i: nat, actor: nat)
    requires UndoLineAt(db, c, i, actor).Ok?
    ensures c in db.cards.rows && c in db.log && i < |db.log[c]|
    ensures var after, line, n := UndoLineAt(db, c, i, actor).value, db.log[c][i], |db.log[c]|;
      var b := db.cards.rows[c].knipjes - line.delta;
      && SameElsewhere(db, after) && after.orders == db.orders
      && after.cards == db.cards.(rows := db.cards.rows[c := db.cards.rows[c].(knipjes := b)])
      && after.log.Keys == db.log.Keys && (forall d :: d in db.log && d != c ==> after.log[d] == db.log[d])
      && |after.log[c]| == n + 1
      && (forall j :: 0 <= j < n && j != i ==> after.log[c][j] == db.log[c][j])
      && after.log[c][i] == line.(reversedBy := Some(n), meal := None)
      && after.log[c][n] == Line(-line.delta, b, Reason.Undo, Some(actor), None, None, Some(i), None)
      && (forall k :: k in after.meals <==> k in db.meals && !(k.card == c && line.meal == Some(k.day)))
      && (forall k :: k in after.meals ==> after.meals[k] == db.meals[k])
  {}

  /** The estimate of a physical card is set to any value from 0 to 10; the log shows the difference, if any. */
  lemma EstimateEffect(db: Db, c: nat, value: int, actor: nat)
    requires Shape(db)
    ensures SetEstimate(db, c, value, actor).Ok? <==>
      0 <= value <= 10 && c in db.cards.rows && db.cards.rows[c].source == Physical
    ensures SetEstimate(db, c, value, actor).Ok? ==>
      var after, was := SetEstimate(db, c, value, actor).value, db.cards.rows[c].knipjes;
      if was == value then after == db
      else
        && Booked(db, after, c, value, Line(value - was, value, EstimateAdjust, Some(actor), None, None, None, None))
        && SameElsewhere(db, after) && after.meals == db.meals && after.orders == db.orders
  {
  }
}
