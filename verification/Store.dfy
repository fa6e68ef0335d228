/** The store as the program runs it: tables that each transaction changes statement by statement, rolled back on error.
    */
module CardStore {
  import opened Prelude
  import opened Journal
  import opened Ledger
  import opened Withdrawals

  class Store {
    var users: Table<User>
    var cards: Table<Card>
    var requests: Table<Request>
    var orders: Table<Order>
    var meals: map<MealKey, Option<nat>>
    var log: map<nat, seq<Line>>
    var books: map<BookKey, Option<nat>>

    function State(): Db
      reads this
    {
      Db(users, cards, requests, orders, meals, log, books)
    }

    constructor (db: Db)
      ensures State() == db
    {
      users, cards, requests, orders := db.users, db.cards, db.requests, db.orders;
      meals, log, books := db.meals, db.log, db.books;
    }

    /** Back to the state in which the transaction began. */
    method Rollback(saved: Db)
      modifies this
      ensures State() == saved
    {
      users, cards, requests, orders := saved.users, saved.cards, saved.requests, saved.orders;
      meals, log, books := saved.meals, saved.log, saved.books;
    }

    // ----- Single statements -----

    /** INSERT INTO cards ... RETURNING id. */
    method InsertCard(card: Card) returns (id: nat)
      modifies this`cards
      ensures id == old(cards.next) && cards == old(cards).Insert(card)
    {
      id := cards.next;
      cards := cards.Insert(card);
    }

    method InsertRequest(row: Request) returns (id: nat)
      modifies this`requests
      ensures id == old(requests.next) && requests == old(requests).Insert(row)
    {
      id := requests.next;
      requests := requests.Insert(row);
    }

    /** insertCardTransaction. */
    method InsertCardTransaction(c: nat, line: Line)
      modifies this`log
      ensures log == old(log)[c := Lines(old(log), c) + [line]]
    {
      log := log[c := Lines(log, c) + [line]];
    }

    method SetKnipjes(c: nat, value: int)
      requires c in cards.rows
      modifies this`cards
      ensures cards == old(cards).Put(c, old(cards).rows[c].(knipjes := value))
    {
      cards := cards.Put(c, cards.rows[c].(knipjes := value));
    }

    method DeleteCard(c: nat)
      modifies this
      ensures State() == DeleteCards(old(State()), {c})
    {
      var d := DeleteCards(State(), {c});
      cards, requests, orders, meals, log := d.cards, d.requests, d.orders, d.meals, d.log;
    }

    // ----- Card requests -----

    /** The checks that creating a request and selling a card share. */
    method CheckBuyer(user: nat, kind: Kind) returns (err: Option<Error>)
      ensures err == BuyerError(State(), user, kind)
    {
      if user !in users.rows { return Some(NotFound); }
      var matroos := users.rows[user].matroos;
      if kind == Avondeten && !matroos { return Some(Forbidden); }
      if HasOpenRequest(requests.rows, user, kind) { return Some(AlreadyPending); }
      return None;
    }

    method CreateCardRequest(user: nat, kind: Kind) returns (r: Outcome<nat>)
      modifies this
      ensures var spec := RequestCard(old(State()), user, kind);
        match r
        case Ok(id) => id == old(requests.next) && spec == Ok(State())
        case Err(e) => spec == Err(e) && State() == old(State())
    {
      var e := CheckBuyer(user, kind);
      if e.Some? { return Err(e.value); }
      var c := InsertCard(Card(user, kind, Online, FULL_CARD));
      log := log[c := [Plain(FULL_CARD, FULL_CARD, Issued, None)]];
      var id := InsertRequest(Request(user, kind, Open, Some(c), 0, None));
      return Ok(id);
    }

    method CreatePhysicalCardSale(buyer: nat, seller: nat, kind: Kind, price: int, month: int) returns (r: Outcome<nat>)
      modifies this
      ensures var spec := SellPhysical(old(State()), buyer, seller, kind, price, month);
        match r
        case Ok(id) => id == old(requests.next) && spec == Ok(State())
        case Err(e) => spec == Err(e) && State() == old(State())
    {
      var e := CheckBuyer(buyer, kind);
      if e.Some? { return Err(e.value); }
      var c := InsertCard(Card(buyer, kind, Physical, FULL_CARD));
      log := log[c := [Plain(FULL_CARD, FULL_CARD, Issued, Some(seller))]];
      var id := InsertRequest(Request(buyer, kind, Fulfilled(Some(seller), month), Some(c), 0, Some(price)));
      return Ok(id);
    }

    method FulfillCardRequest(r: nat, admin: nat, price: int, month: int) returns (err: Option<Error>)
      modifies this
      ensures Settles(Fulfil(old(State()), r, admin, price, month), old(State()), State(), err)
    {
      if r !in requests.rows { return Some(NotFound); }
      var row := requests.rows[r];
      if !row.status.Open? { return Some(Forbidden); }
      if row.card.Some? {
        requests := requests.Put(r, row.(status := Fulfilled(Some(admin), month), price := Some(price)));
        return None;
      }
      var knipjesOnCard := FULL_CARD - row.trustUsed;
      var c := InsertCard(Card(row.user, row.kind, Online, knipjesOnCard));
      log := log[c := [Plain(knipjesOnCard, knipjesOnCard, Issued, Some(admin))]];
      requests := requests.Put(r, row.(status := Fulfilled(Some(admin), month), card := Some(c), price := Some(price)));
      return None;
    }

    method AdminRejectCardRequest(r: nat) returns (err: Option<Error>)
      modifies this
      ensures Settles(Reject(old(State()), r), old(State()), State(), err)
    {
      if r !in requests.rows || !requests.rows[r].status.Open? { return Some(NotFound); }
      var card := requests.rows[r].card;
      if card.Some? {
        if card.value !in cards.rows { return Some(MissingRow); }
        var remaining := cards.rows[card.value].knipjes;
        if remaining < FULL_CARD { return Some(CannotRejectKnipjesUsed); }
      } else {
        var trustUsed := requests.rows[r].trustUsed;
        if trustUsed > 0 { return Some(CannotRejectKnipjesUsed); }
      }
      CancelAndDrop(r);
      return None;
    }

    /** The request becomes cancelled, then its card goes. */
    method CancelAndDrop(r: nat)
      requires r in requests.rows
      modifies this
      ensures State() == Withdraw(old(State()), {r})
    {
      ghost var before := State();
      var card := requests.rows[r].card;
      requests := requests.Put(r, requests.rows[r].(status := Withdrawn));
      WithdrawOne(before, r);
      if card.Some? { DeleteCard(card.value); }
    }

    method CancelCardRequestForUser(r: nat, user: nat) returns (err: Option<Error>)
      modifies this
      ensures Settles(CancelRequest(old(State()), r, user), old(State()), State(), err)
    {
      if r !in requests.rows || requests.rows[r].user != user || !requests.rows[r].status.Open? {
        return Some(NotFound);
      }
      var card := requests.rows[r].card;
      if card.None? { return Some(NotFound); }
      if card.value !in cards.rows { return Some(MissingRow); }
      var remaining := cards.rows[card.value].knipjes;
      if remaining < FULL_CARD { return Some(CannotCancelTrustUsed); }
      CancelAndDrop(r);
      return None;
    }

    /** The member's open requests, in whatever order the query returns them. */
    method CollectOpen(user: nat) returns (list: seq<nat>)
      ensures Collected(list, requests.rows, user, {})
    {
      list := [];
      var todo := requests.rows.Keys;
      while todo != {}
        invariant todo <= requests.rows.Keys && Collected(list, requests.rows, user, todo)
        decreases |todo|
      {
        var id :| id in todo;
        todo := todo - {id};
        if IsOpenOf(requests.rows[id], user) { list := list + [id]; }
      }
    }

    method ValidateAll(list: seq<nat>) returns (err: Option<Error>)
      requires forall i :: 0 <= i < |list| ==> list[i] in requests.rows
      ensures err.None? ==> forall i :: 0 <= i < |list| ==> Obstacle(State(), requests.rows[list[i]]).None?
      ensures err.Some? ==> exists i :: 0 <= i < |list| && Obstacle(State(), requests.rows[list[i]]) == err
    {
      for i := 0 to |list|
        invariant forall j :: 0 <= j < i ==> Obstacle(State(), requests.rows[list[j]]).None?
      {
        var row := requests.rows[list[i]];
        if KnipjesOf(State(), row) < FULL_CARD { return Some(CannotCancelTrustUsed); }
        if row.card.None? { return Some(NotFound); }
      }
      return None;
    }

    method ApplyAll(list: seq<nat>) returns (n: nat)
      requires forall i :: 0 <= i < |list| ==> list[i] in requests.rows
      requires forall i, j :: 0 <= i < j < |list| ==> list[i] != list[j]
      modifies this
      ensures n == |list| && State() == Withdraw(old(State()), Members(list))
    {
      n := 0;
      ghost var before := State();
      NothingWithdrawn(before);
      assert Members(list[..0]) == {};
      for i := 0 to |list|
        invariant n == i && State() == Withdraw(before, Members(list[..i]))
      {
        hide Withdraw;
        assert list[..i + 1] == list[..i] + [list[i]];
        assert Members(list[..i + 1]) == Members(list[..i]) + {list[i]};
        WithdrawNext(before, Members(list[..i]), list[i]);
        CancelAndDrop(list[i]);
        n := n + 1;
      }
      assert list[..|list|] == list;
    }

    /** Collect the member's open requests, validate them all, then cancel them all. */
    method CancelAllPendingCardRequestsForUser(user: nat) returns (r: Outcome<nat>)
      modifies this
      ensures var spec := CancelAll(old(State()), user);
        match r
        case Ok(n) => n == |OpenOf(old(requests.rows), user)| && spec == Ok(State())
        case Err(e) => spec.Err? && e in spec.error && State() == old(State())
    {
      hide Withdraw;
      var list := CollectOpen(user);
      assert Members(list) == OpenOf(requests.rows, user);
      DistinctCount(list);
      var e := ValidateAll(list);
      if e.Some? {
        var i :| 0 <= i < |list| && Obstacle(State(), requests.rows[list[i]]) == e;
        assert list[i] in OpenOf(requests.rows, user) && e.value in Obstacles(State(), user);
        return Err(e.value);
      }
      assert Obstacles(State(), user) == {};
      var n := ApplyAll(list);
      return Ok(n);
    }

    // ----- Orders -----

    method InsertTostiOrderRow(row: Order) returns (id: nat)
      modifies this`orders
      ensures id == old(orders.next) && orders == old(orders).Insert(row)
    {
      id := orders.next;
      orders := orders.Insert(row);
    }

    method CreateTostiOrder(user: nat, card: Option<nat>, bread: string, filling: string, quantity: int, remark: string)
      returns (r: Outcome<nat>)
      modifies this
      ensures var spec := CreateOrder(old(State()), user, card, bread, filling, quantity, remark);
        match r
        case Ok(id) => id == old(orders.next) && spec == Ok(State())
        case Err(e) => spec == Err(e) && State() == old(State())
    {
      if |remark| > REMARK_MAX { return Err(InvalidRemark); }
      if quantity < QUANTITY_MIN || quantity > QUANTITY_MAX { return Err(InvalidQuantity); }
      var b := ParseBread(bread);
      if b.Err? { return Err(b.error); }
      var f := ParseFilling(filling);
      if f.Err? { return Err(f.error); }
      var row := Order(user, card, b.value, f.value, quantity, remark, Pending);
      if card.Some? {
        var c := card.value;
        if c !in cards.rows || cards.rows[c].owner != user { return Err(NotFound); }
        if cards.rows[c].kind != Tosti { return Err(CardNotForTosti); }
        if cards.rows[c].source != Online { return Err(CardPhysicalReadonly); }
        var pendingSum := Total(orders.rows, PendingOf(user, c), orders.next);
        if pendingSum + quantity > cards.rows[c].knipjes { return Err(NoKnipjes); }
      }
      var id := InsertTostiOrderRow(row);
      return Ok(id);
    }

    method CancelTostiOrder(o: nat, actor: nat, staff: bool) returns (err: Option<Error>)
      modifies this
      ensures Settles(CancelOrder(old(State()), o, actor, staff), old(State()), State(), err)
    {
      if o !in orders.rows { return Some(NotFound); }
      var row := orders.rows[o];
      if !row.status.Pending? { return Some(OrderNotPending); }
      if !staff && row.user != actor { return Some(OrderWrongUser); }
      orders := orders.Put(o, row.(status := Cancelled(Some(actor))));
      return None;
    }

    method DeliverTostiOrder(o: nat, who: nat) returns (err: Option<Error>)
      modifies this
      ensures Settles(Deliver(old(State()), o, who), old(State()), State(), err)
    {
      if o !in orders.rows { return Some(NotFound); }
      var row := orders.rows[o];
      if !row.status.Pending? { return Some(OrderNotPending); }
      var qty := row.quantity;
      if qty < QUANTITY_MIN || qty > QUANTITY_MAX { return Some(InvalidQuantity); }
      var card := if row.card.Some? then row.card else FindPhysicalTostiCard(cards, row.user);
      if card.None? {
        orders := orders.Put(o, row.(status := Delivered(Some(who))));
        return None;
      }
      var c := card.value;
      if c !in cards.rows || cards.rows[c].owner != row.user || cards.rows[c].kind != Tosti { return Some(NotFound); }
      var knip := cards.rows[c].knipjes;
      var newBal := knip - qty;
      if cards.rows[c].source == Physical {
        if newBal < 0 { newBal := 0; }
      } else {
        if AwaitsVerification(requests.rows, c) { return Some(CardNotVerified); }
        if knip < qty { return Some(NoKnipjes); }
      }
      SetKnipjes(c, newBal);
      InsertCardTransaction(c, Line(newBal - knip, newBal, TostiDelivered, Some(who), Some(o), None, None, None));
      orders := orders.Put(o, row.(status := Delivered(Some(who)), card := Some(c)));
      return None;
    }

    // ----- Punches, meals, undo, estimates -----

    method UseKnipjeOn(c: nat, actor: Option<Actor>) returns (err: Option<Error>)
      modifies this
      ensures Settles(UseKnipje(old(State()), c, actor), old(State()), State(), err)
    {
      if actor.None? || (!actor.value.admin && !actor.value.operator) { return Some(Forbidden); }
      if c !in cards.rows { return Some(NotFound); }
      var knip := cards.rows[c].knipjes;
      if cards.rows[c].source == Physical { return Some(CardPhysicalReadonly); }
      if knip <= 0 { return Some(NoKnipjes); }
      if AwaitsVerification(requests.rows, c) { return Some(CardNotVerified); }
      SetKnipjes(c, knip - 1);
      InsertCardTransaction(c, Plain(-1, knip - 1, ManualKnipje, Some(actor.value.id)));
      return None;
    }

    /** The distinct positive ids, in list order. */
    method Distinct(ids: seq<int>, ghost db: Db, ghost day: int) returns (distinct: seq<nat>)
      ensures DistinctOf(distinct, Selected(ids))
      ensures FirstRefusal(db, ids, day) == FirstRefusal(db, distinct, day)
    {
      var seen: set<nat> := {};
      distinct := [];
      for i := 0 to |ids|
        invariant seen == Selected(ids[..i]) && DistinctOf(distinct, seen)
        invariant FirstRefusal(db, ids[..i], day) == FirstRefusal(db, distinct, day)
      {
        assert ids[..i + 1] == ids[..i] + [ids[i]];
        RefusalAppend(db, ids[..i], ids[i], day);
        if ids[i] > 0 && ids[i] as nat !in seen {
          RefusalAppend(db, distinct, ids[i], day);
          seen := seen + {ids[i] as nat};
          distinct := distinct + [ids[i] as nat];
        } else {
          RefusalRepeated(db, ids[..i], ids[i], day);
        }
      }
      assert ids[..|ids|] == ids;
    }

    /** One meal on card `c`, or the reason why not. */
    method BookOneMeal(c: nat, day: int, who: nat) returns (err: Option<Error>)
      modifies this
      ensures err == MealError(old(State()), c, day)
      ensures err.None? ==> State() == BookMeal(old(State()), c, day, who)
      ensures err.Some? ==> State() == old(State())
    {
      if c !in cards.rows { return Some(NotFound); }
      var knip := cards.rows[c].knipjes;
      if cards.rows[c].kind != Avondeten { return Some(WrongCardKind); }
      if knip <= 0 { return Some(NoKnipjes); }
      if AwaitsVerification(requests.rows, c) { return Some(CardNotVerified); }
      if MealKey(c, day) in meals { return Some(MealAlreadyRegistered); }
      meals := meals[MealKey(c, day) := Some(who)];
      SetKnipjes(c, knip - 1);
      InsertCardTransaction(c, Line(-1, knip - 1, AvondetenMeal, Some(who), None, Some(day), None, None));
      return None;
    }

    /** The dedupe loop, then one booking per distinct card; any refusal undoes them all. */
    method RegisterAvondetenMealsForDate(ids: seq<int>, day: int, who: nat) returns (r: Outcome<nat>)
      modifies this
      ensures var spec := RegisterMeals(old(State()), ids, day, who);
        match r
        case Ok(n) => n == |Selected(ids)| && spec == Ok(State())
        case Err(e) => spec == Err(e) && State() == old(State())
    {
      hide MealError, BookMeals, BookMeal, FirstRefusal;
      var saved := State();
      var distinct := Distinct(ids, saved, day);
      var n := 0;
      NothingBooked(saved, day, who);
      assert distinct[..0] == [];
      for i := 0 to |distinct|
        invariant n == i && FirstRefusal(saved, distinct[..i], day).None?
        invariant forall c :: c in distinct[..i] ==> c in saved.cards.rows
        invariant State() == BookMeals(saved, Members(distinct[..i]), day, who)
      {
        var c := distinct[i];
        assert c in distinct && c > 0;
        assert distinct[..i + 1] == distinct[..i] + [c];
        assert Members(distinct[..i + 1]) == Members(distinct[..i]) + {c};
        RefusalAppend(saved, distinct[..i], c, day);
        RefusalPrefix(saved, distinct, i + 1, day);
        MealErrorUnchanged(saved, Members(distinct[..i]), day, who, c);
        var e := BookOneMeal(c, day, who);
        if e.Some? {
          Rollback(saved);
          return Err(e.value);
        }
        NoErrorNoGap(saved, c, day);
        BookNext(saved, Members(distinct[..i]), day, who, c);
        n := n + 1;
      }
      assert distinct[..|distinct|] == distinct;
      DistinctCount(distinct);
      return Ok(n);
    }

    method UndoCardTransaction(c: nat, i: nat, actor: nat) returns (err: Option<Error>)
      modifies this
      ensures Settles(UndoLineAt(old(State()), c, i, actor), old(State()), State(), err)
    {
      if c !in log || i >= |log[c]| { return Some(NotFound); }
      var line := log[c][i];
      if line.reason == Issued || line.reason == Undo || line.reason == Backfill { return Some(TxNotUndoable); }
      if line.reversedBy.Some? { return Some(TxAlreadyUndone); }
      if line.delta == 0 { return Some(TxNotUndoable); }
      if c !in cards.rows { return Some(NotFound); }
      var newBal := cards.rows[c].knipjes - line.delta;
      if newBal < 0 || newBal > FULL_CARD { return Some(UndoOutOfRange); }
      var undoID := |log[c]|;
      if line.meal.Some? {
        // The meal row goes, and with it every reference to it.
        meals := meals - {MealKey(c, line.meal.value)};
        log := log[c := log[c][i := log[c][i].(meal := None)]];
      }
      SetKnipjes(c, newBal);
      InsertCardTransaction(c, Line(-line.delta, newBal, Undo, Some(actor), None, None, Some(i), None));
      log := log[c := log[c][i := log[c][i].(reversedBy := Some(undoID))]];
      assert log[c] == WithUndo(old(log)[c], i, newBal, actor);
      return None;
    }

    method SetPhysicalCardEstimate(c: nat, value: int, actor: nat) returns (err: Option<Error>)
      modifies this
      ensures Settles(SetEstimate(old(State()), c, value, actor), old(State()), State(), err)
    {
      if value < 0 || value > FULL_CARD { return Some(EstimateOutOfRange); }
      if c !in cards.rows { return Some(NotFound); }
      var knip := cards.rows[c].knipjes;
      if cards.rows[c].source != Physical { return Some(CardNotPhysical); }
      if knip == value { return None; }
      SetKnipjes(c, value);
      InsertCardTransaction(c, Plain(value - knip, value, EstimateAdjust, Some(actor)));
      return None;
    }

    // ----- Accounts -----

    /** One UPDATE per foreign-key column found in the catalog; a unique violation ends the transaction. */
    method ReassignUserReferences(refs: seq<Column>, src: nat, dst: nat) returns (err: Option<Error>)
      modifies this
      ensures var spec := Reassign(old(State()), refs, src, dst);
        if spec.Ok? then err.None? && State() == spec.value else err == Some(spec.error)
    {
      hide MoveColumn, OneOpenPerKind;
      ghost var before := State();
      assert refs[0..] == refs;
      for i := 0 to |refs|
        invariant Reassign(before, refs, src, dst) == Reassign(State(), refs[i..], src, dst)
      {
        assert refs[i..][0] == refs[i] && refs[i..][1..] == refs[i + 1..];
        ColumnKeepsUsers(State(), refs[i], src, dst);
        var moved := MoveColumn(State(), refs[i], src, dst);
        if !OneOpenPerKind(moved.requests.rows) { return Some(MergeConflict); }
        cards, requests, orders, meals, log, books := moved.cards, moved.requests, moved.orders, moved.meals,
            moved.log, moved.books;
      }
      return None;
    }

    method AdminMergeLocalUserIntoGoogle(src: nat, dst: nat, actor: nat) returns (err: Option<Error>)
      modifies this
      ensures Settles(Merge(old(State()), src, dst, actor), old(State()), State(), err)
    {
      if src == dst { return Some(MergeTargetNotGoogle); }
      if src == actor || dst == actor { return Some(CannotChangeSelf); }
      var saved := State();
      if src !in users.rows { return Some(NotFound); }
      var login, matroos := users.rows[src].login, users.rows[src].matroos;
      if login.None? { return Some(MergeSourceNotLocal); }
      if IsSystem(login) { return Some(SystemUser); }
      if dst !in users.rows { return Some(NotFound); }
      if !users.rows[dst].google { return Some(MergeTargetNotGoogle); }
      ReassignKeepsUsers(saved, COLUMNS, src, dst);
      var e := ReassignUserReferences(COLUMNS, src, dst);
      if e.Some? {
        Rollback(saved);
        return e;
      }
      if matroos { users := users.Put(dst, users.rows[dst].(matroos := true)); }
      DropUser(src);
      return None;
    }

    /** DELETE FROM users, with the cascades of the schema. */
    method DropUser(u: nat)
      modifies this
      ensures State() == DeleteUserRow(old(State()), u)
    {
      var d := DeleteUserRow(State(), u);
      users, cards, requests, orders, meals, log, books := d.users, d.cards, d.requests, d.orders, d.meals, d.log,
          d.books;
    }

    method EnsureDeletedMemberPlaceholder() returns (id: nat)
      modifies this`users
      ensures (State(), id) == WithPlaceholder(old(State()))
    {
      var found := FindLogin(users.rows, DELETED_MEMBERS, users.next);
      if found.Some? { return found.value; }
      id := users.next;
      users := users.Insert(User(Some(DELETED_MEMBERS), false, false, true));
    }

    /** Cancel the user's open requests in one UPDATE, collect the cards it returns, then drop those cards in one
        DELETE. */
    method CloseRequests(user: nat)
      modifies this
      ensures State() == Withdraw(old(State()), OpenOf(old(requests.rows), user))
    {
      ghost var before := State();
      var rs := OpenOf(requests.rows, user);
      requests := Table(MarkWithdrawn(requests.rows, rs), requests.next);
      var pendingCards := CollectCards(rs);
      assert pendingCards == CardsOf(before.requests.rows, rs);
      var d := DeleteCards(State(), pendingCards);
      cards, requests, orders, meals, log := d.cards, d.requests, d.orders, d.meals, d.log;
    }

    method CollectCards(rs: set<nat>) returns (pendingCards: set<nat>)
      requires rs <= requests.rows.Keys
      ensures pendingCards == CardsOf(requests.rows, rs)
    {
      pendingCards := {};
      var todo := rs;
      while todo != {}
        invariant todo <= rs && pendingCards == CardsOf(requests.rows, rs - todo)
        decreases |todo|
      {
        var id :| id in todo;
        CardsOfNext(requests.rows, rs - todo, id);
        assert rs - todo + {id} == rs - (todo - {id});
        todo := todo - {id};
        if requests.rows[id].card.Some? { pendingCards := pendingCards + {requests.rows[id].card.value}; }
      }
    }

    method AdminDeleteUser(user: nat, actor: nat) returns (err: Option<Error>)
      modifies this
      ensures Settles(DeleteUser(old(State()), user, actor), old(State()), State(), err)
    {
      if user == actor { return Some(CannotChangeSelf); }
      var saved := State();
      if user !in users.rows { return Some(NotFound); }
      if IsSystem(users.rows[user].login) { return Some(SystemUser); }
      if !users.rows[user].disabled { return Some(UserNotDisabled); }
      CloseRequests(user);
      orders := CancelOrdersOf(State(), user, actor).orders;
      var placeholder := EnsureDeletedMemberPlaceholder();
      var e := ReassignUserReferences(COLUMNS, user, placeholder);
      if e.Some? {
        Rollback(saved);
        return e;
      }
      DropUser(user);
      return None;
    }
  }

  /** The method did what the operation means: committed its result, or failed and left the state alone. */
  ghost predicate Settles(spec: Outcome<Db>, before: Db, after: Db, err: Option<Error>) {
    match spec
    case Ok(db) => err.None? && after == db
    case Err(e) => err == Some(e) && after == before
  }

  // ----- Loops over requests -----

  /** `list` holds each open request of `user` outside `todo` once. */
  ghost predicate Collected(list: seq<nat>, requests: map<nat, Request>, user: nat, todo: set<nat>) {
    && (forall i :: 0 <= i < |list| ==> list[i] !in todo && list[i] in requests && IsOpenOf(requests[list[i]], user))
    && (forall i, j :: 0 <= i < j < |list| ==> list[i] != list[j])
    && (forall r :: r in requests && IsOpenOf(requests[r], user) && r !in todo ==> r in list)
  }

  // ----- Loops over meals -----

  function Members(s: seq<nat>): set<nat> { set c | c in s }

  ghost predicate DistinctOf(s: seq<nat>, seen: set<nat>) {
    && Members(s) == seen && (forall c :: c in s ==> c > 0)
    && forall i, j :: 0 <= i < j < |s| ==> s[i] != s[j]
  }

  lemma {:induction false} DistinctCount(s: seq<nat>)
    requires forall i, j :: 0 <= i < j < |s| ==> s[i] != s[j]
    ensures |Members(s)| == |s|
  {
    if s != [] {
      var last := |s| - 1;
      DistinctCount(s[..last]);
      assert Members(s) == Members(s[..last]) + {s[last]};
    } else {
      assert Members(s) == {};
    }
  }

  lemma {:induction false} RefusalAppend(db: Db, ids: seq<int>, id: int, day: int)
    ensures FirstRefusal(db, ids + [id], day) ==
      if FirstRefusal(db, ids, day).Some? then FirstRefusal(db, ids, day)
      else if id > 0 then MealError(db, id, day) else None
  {
    if ids == [] {
      assert ([] + [id])[1..] == [];
    } else {
      assert (ids + [id])[1..] == ids[1..] + [id];
      RefusalAppend(db, ids[1..], id, day);
    }
  }

  /** A repeated id cannot be the first refusal. */
  lemma RefusalRepeated(db: Db, ids: seq<int>, id: int, day: int)
    requires id <= 0 || id as nat in Selected(ids)
    ensures FirstRefusal(db, ids + [id], day) == FirstRefusal(db, ids, day)
  {
    RefusalAppend(db, ids, id, day);
    FirstRefusalNone(db, ids, day);
  }

  lemma RefusalPrefix(db: Db, ids: seq<nat>, n: nat, day: int)
    requires n <= |ids|
    ensures FirstRefusal(db, ids[..n], day).Some? ==> FirstRefusal(db, ids, day) == FirstRefusal(db, ids[..n], day)
    decreases |ids| - n
  {
    if n < |ids| {
      RefusalPrefix(db, ids, n + 1, day);
      assert ids[..n + 1] == ids[..n] + [ids[n]];
      RefusalAppend(db, ids[..n], ids[n], day);
    } else {
      assert ids[..n] == ids;
    }
  }

  lemma NoErrorNoGap(db: Db, c: nat, day: int)
    requires MealError(db, c, day).None?
    ensures c in db.cards.rows
  {}

  /** Meals booked on other cards do not change what a card is refused for. */
  lemma MealErrorUnchanged(db: Db, cs: set<nat>, day: int, who: nat, c: nat)
    requires (forall d :: d in cs ==> d in db.cards.rows) && c !in cs
    ensures MealError(BookMeals(db, cs, day, who), c, day) == MealError(db, c, day)
  {}

  lemma NothingBooked(db: Db, day: int, who: nat)
    ensures BookMeals(db, {}, day, who) == db
    ensures Members([]) == {}
    ensures FirstRefusal(db, [], day).None?
  {
    var after := BookMeals(db, {}, day, who);
    assert after.cards.rows == db.cards.rows && after.log == db.log && after.meals == db.meals;
  }

  /** Booking one more card on top of a batch is booking the larger batch. */
  lemma BookNext(db: Db, cs: set<nat>, day: int, who: nat, c: nat)
    requires (forall d :: d in cs ==> d in db.cards.rows) && c in db.cards.rows && c !in cs
    ensures BookMeal(BookMeals(db, cs, day, who), c, day, who) == BookMeals(db, cs + {c}, day, who)
  {
    var one := BookMeal(BookMeals(db, cs, day, who), c, day, who);
    var all := BookMeals(db, cs + {c}, day, who);
    assert one.cards.rows == all.cards.rows by { BookNextCards(db, cs, day, who, c); }
    assert one.log == all.log by { BookNextLog(db, cs, day, who, c); }
    assert one.meals == all.meals by { BookNextMeals(db.meals, cs, day, who, c); }
  }

  lemma BookNextCards(db: Db, cs: set<nat>, day: int, who: nat, c: nat)
    requires (forall d :: d in cs ==> d in db.cards.rows) && c in db.cards.rows && c !in cs
    ensures BookMeal(BookMeals(db, cs, day, who), c, day, who).cards.rows
      == BookMeals(db, cs + {c}, day, who).cards.rows
  {}

  lemma BookNextLog(db: Db, cs: set<nat>, day: int, who: nat, c: nat)
    requires (forall d :: d in cs ==> d in db.cards.rows) && c in db.cards.rows && c !in cs
    ensures BookMeal(BookMeals(db, cs, day, who), c, day, who).log == BookMeals(db, cs + {c}, day, who).log
  {}

  lemma MealKeysWithin(cs: set<nat>, day: int)
    ensures forall k :: k in MealKeys(cs, day) ==> k.card in cs && k.day == day
  {}

  lemma BookNextMeals(meals: map<MealKey, Option<nat>>, cs: set<nat>, day: int, who: nat, c: nat)
    requires c !in cs
    ensures WithMeals(meals, cs, day, who)[MealKey(c, day) := Some(who)] == WithMeals(meals, cs + {c}, day, who)
  {
    assert MealKeys(cs + {c}, day) == MealKeys(cs, day) + {MealKey(c, day)};
    hide MealKeys;
    MealKeysWithin(cs, day);
  }

  lemma ColumnKeepsUsers(db: Db, col: Column, src: nat, dst: nat)
    ensures MoveColumn(db, col, src, dst).users == db.users
  {}

  lemma {:induction false} ReassignKeepsUsers(db: Db, cols: seq<Column>, src: nat, dst: nat)
    ensures Reassign(db, cols, src, dst).Ok? ==> Reassign(db, cols, src, dst).value.users == db.users
    decreases |cols|
  {
    if cols != [] { ReassignKeepsUsers(MoveColumn(db, cols[0], src, dst), cols[1..], src, dst); }
  }
}
