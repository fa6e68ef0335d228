/** Merging a local account into a Google account, and deleting an account: what moves, what survives, when it is
    refused. */
module Lifecycle {
  import opened Prelude
  import opened Journal
  import opened Ledger
  import opened CardBook
  import opened CardSteps
  import opened Invariant
  import opened Preservation

  /** Every reference to `src` replaced by `dst` at once. */
  function Renamed(db: Db, src: nat, dst: nat): Db {
    Db(db.users,
       Table(map c | c in db.cards.rows :: db.cards.rows[c].(owner := Moved(db.cards.rows[c].owner, src, dst)),
           db.cards.next),
       Table(map r | r in db.requests.rows :: RenamedRequest(db.requests.rows[r], src, dst), db.requests.next),
       Table(MovedOrders(db.orders.rows, src, dst), db.orders.next),
       map k | k in db.meals :: MovedOpt(db.meals[k], src, dst),
       map c | c in db.log :: MovedLines(db.log[c], src, dst),
       map k | k in db.books :: MovedOpt(db.books[k], src, dst))
  }

  function RenamedRequest(row: Request, src: nat, dst: nat): Request {
    row.(user := Moved(row.user, src, dst), status := MovedStatus(row.status, src, dst))
  }

  // ----- The column loop -----

  /** The columns moved one after the other, without the index check. */
  function MoveAll(db: Db, cols: seq<Column>, src: nat, dst: nat): Db
    decreases |cols|
  {
    if cols == [] then db else MoveAll(MoveColumn(db, cols[0], src, dst), cols[1..], src, dst)
  }

  /** The two requests tables have the same owners, kinds and open rows. */
  ghost predicate SameClaims(a: map<nat, Request>, b: map<nat, Request>) {
    a.Keys == b.Keys && forall r :: r in a ==>
      a[r].user == b[r].user && a[r].kind == b[r].kind && a[r].status.Open? == b[r].status.Open?
  }

  lemma SameClaimsUnique(a: map<nat, Request>, b: map<nat, Request>)
    requires SameClaims(a, b)
    ensures OneOpenPerKind(a) == OneOpenPerKind(b)
  {
    assert forall r :: r in a <==> r in b;
  }

  lemma ColumnClaims(db: Db, col: Column, src: nat, dst: nat)
    ensures SameClaims(MoveColumn(db, col, src, dst).requests.rows,
                       if col == RequestUser then MovedRequests(db.requests, src, dst).rows else db.requests.rows)
    ensures SameClaims(MovedRequests(MoveColumn(db, col, src, dst).requests, src, dst).rows,
        MovedRequests(db.requests, src, dst).rows)
  {}

  /** The unique index lets the loop run to the end exactly when the renamed owners respect it. */
  lemma {:induction false} ReassignRuns(db: Db, cols: seq<Column>, src: nat, dst: nat)
    requires OneOpenPerKind(db.requests.rows)
    ensures OneOpenPerKind(MovedRequests(db.requests, src, dst).rows) ==>
      Reassign(db, cols, src, dst) == Ok(MoveAll(db, cols, src, dst))
    ensures !OneOpenPerKind(MovedRequests(db.requests, src, dst).rows) && RequestUser in cols ==>
      Reassign(db, cols, src, dst) == Err(MergeConflict)
    decreases |cols|
  {
    if cols != [] {
      var moved := MoveColumn(db, cols[0], src, dst);
      ColumnClaims(db, cols[0], src, dst);
      SameClaimsUnique(moved.requests.rows,
          if cols[0] == RequestUser then MovedRequests(db.requests, src, dst).rows else db.requests.rows);
      SameClaimsUnique(MovedRequests(moved.requests, src, dst).rows, MovedRequests(db.requests, src, dst).rows);
      if OneOpenPerKind(moved.requests.rows) { ReassignRuns(moved, cols[1..], src, dst); }
      assert RequestUser in cols && cols[0] != RequestUser ==> RequestUser in cols[1..];
    }
  }

  function MoveThree(db: Db, i: nat, src: nat, dst: nat): Db
    requires i + 3 <= |COLUMNS|
  {
    MoveColumn(MoveColumn(MoveColumn(db, COLUMNS[i], src, dst), COLUMNS[i + 1], src, dst), COLUMNS[i + 2], src, dst)
  }

  lemma ThreeColumns(db: Db, i: nat, src: nat, dst: nat)
    requires i + 3 <= |COLUMNS|
    ensures MoveAll(db, COLUMNS[i..], src, dst) == MoveAll(MoveThree(db, i, src, dst), COLUMNS[i + 3..], src, dst)
  {
    assert COLUMNS[i..][1..] == COLUMNS[i + 1..];
    assert COLUMNS[i + 1..][1..] == COLUMNS[i + 2..];
    assert COLUMNS[i + 2..][1..] == COLUMNS[i + 3..];
    var d1 := MoveColumn(db, COLUMNS[i], src, dst);
    var d2 := MoveColumn(d1, COLUMNS[i + 1], src, dst);
    assert MoveAll(db, COLUMNS[i..], src, dst) == MoveAll(d1, COLUMNS[i + 1..], src, dst);
    assert MoveAll(d1, COLUMNS[i + 1..], src, dst) == MoveAll(d2, COLUMNS[i + 2..], src, dst);
  }

  function StatusMoved(t: Table<Request>, src: nat, dst: nat): Table<Request> {
    Table(map r | r in t.rows :: t.rows[r].(status := MovedStatus(t.rows[r].status, src, dst)), t.next)
  }

  function MovedBooksLater(books: map<BookKey, Option<nat>>, src: nat, dst: nat): map<BookKey, Option<nat>> {
    MovedBooks(MovedBooks(MovedBooks(books, FinanceCorrections, src, dst), ImportReviews, src, dst), ShopExpenses,
        src, dst)
  }

  lemma FirstThree(db: Db, src: nat, dst: nat)
    ensures MoveThree(db, 0, src, dst)
      == db.(meals := Renamed(db, src, dst).meals, books := MovedBooks(db.books, BankCredits, src, dst),
                                              requests := StatusMoved(db.requests, src, dst))
  {}

  lemma SecondThree(db: Db, src: nat, dst: nat)
    ensures MoveThree(db, 3, src, dst)
      == db.(requests := MovedRequests(db.requests, src, dst), log := Renamed(db, src, dst).log,
                                              cards := Renamed(db, src, dst).cards)
  {}

  lemma ThirdThree(db: Db, src: nat, dst: nat)
    ensures MoveThree(db, 6, src, dst) == db.(books := MovedBooksLater(db.books, src, dst))
  {}

  lemma LastThree(db: Db, src: nat, dst: nat)
    ensures MoveThree(db, 9, src, dst) == db.(orders := Renamed(db, src, dst).orders)
  {
    assert MoveThree(db, 9, src, dst).orders.rows == MovedOrders(db.orders.rows, src, dst);
  }

  lemma RequestsAndBooksMoved(db: Db, src: nat, dst: nat)
    ensures MovedRequests(StatusMoved(db.requests, src, dst), src, dst) == Renamed(db, src, dst).requests
    ensures MovedBooksLater(MovedBooks(db.books, BankCredits, src, dst), src, dst) == Renamed(db, src, dst).books
  {
    assert MovedRequests(StatusMoved(db.requests, src, dst), src, dst).rows == Renamed(db, src, dst).requests.rows;
  }

  /** The loop over the catalog's columns renames every reference. */
  lemma ColumnsRename(db: Db, src: nat, dst: nat)
    ensures MoveAll(db, COLUMNS, src, dst) == Renamed(db, src, dst)
  {
    assert COLUMNS[0..] == COLUMNS && COLUMNS[12..] == [];
    hide MoveThree;
    var d3 := MoveThree(db, 0, src, dst);
    var d6 := MoveThree(d3, 3, src, dst);
    var d9 := MoveThree(d6, 6, src, dst);
    ThreeColumns(db, 0, src, dst);
    ThreeColumns(d3, 3, src, dst);
    ThreeColumns(d6, 6, src, dst);
    ThreeColumns(d9, 9, src, dst);
    FirstThree(db, src, dst);
    SecondThree(d3, src, dst);
    ThirdThree(d6, src, dst);
    LastThree(d9, src, dst);
    RequestsAndBooksMoved(db, src, dst);
  }

  // ----- No reference is left behind -----

  ghost predicate Mentions(db: Db, u: nat) {
    || (exists c :: c in db.cards.rows && db.cards.rows[c].owner == u)
    || (exists r :: r in db.requests.rows && MentionsRequest(db.requests.rows[r], u))
    || (exists o :: o in db.orders.rows && MentionsOrder(db.orders.rows[o], u))
    || (exists k :: k in db.meals && db.meals[k] == Some(u))
    || (exists c :: c in db.log && MentionsLine(db.log[c], u))
    || (exists k :: k in db.books && db.books[k] == Some(u))
  }

  ghost predicate MentionsRequest(row: Request, u: nat) {
    row.user == u || (row.status.Fulfilled? && row.status.who == Some(u))
  }

  ghost predicate MentionsOrder(row: Order, u: nat) {
    row.user == u || row.status == Delivered(Some(u)) || row.status == Cancelled(Some(u))
  }

  ghost predicate MentionsLine(lines: seq<Line>, u: nat) {
    exists i :: 0 <= i < |lines| && lines[i].actor == Some(u)
  }

  lemma NothingLeftBehind(db: Db, src: nat, dst: nat)
    requires src != dst
    ensures !Mentions(Renamed(db, src, dst), src)
  {}

  /** With no reference left, deleting the account row cascades to nothing and clears nothing. */
  lemma DeleteCascadesToNothing(db: Db, u: nat)
    requires !Mentions(db, u)
    ensures DeleteUserRow(db, u) == db.(users := db.users.(rows := db.users.rows - {u}))
  {
    var owned := set c | c in db.cards.rows && db.cards.rows[c].owner == u;
    assert owned == {};
    NothingDeleted(db);
    assert DeleteCards(db, owned) == db;
    var after := DeleteUserRow(db, u);
    assert after.log == db.log by {
      forall c | c in db.log ensures after.log[c] == db.log[c] {
        assert !MentionsLine(db.log[c], u);
      }
    }
    assert after.requests.rows == db.requests.rows by {
      forall r | r in db.requests.rows ensures !MentionsRequest(db.requests.rows[r], u) {}
    }
    assert after.orders.rows == db.orders.rows by {
      forall o | o in db.orders.rows ensures !MentionsOrder(db.orders.rows[o], u) {}
    }
    assert after.meals == db.meals;
    assert after.books == db.books;
  }

  lemma NothingDeleted(db: Db)
    ensures DeleteCards(db, {}) == db
  {
    var after := DeleteCards(db, {});
    assert after.cards.rows == db.cards.rows && after.requests.rows == db.requests.rows && after.orders.rows
      == db.orders.rows;
    assert after.meals == db.meals && after.log == db.log;
  }

  // ----- Renaming keeps the invariant -----

  lemma RenamedView(db: Db, src: nat, dst: nat, c: nat)
    requires Shape(db) && c in db.cards.rows
    ensures var after := Renamed(db, src, dst);
      c in after.cards.rows && c in after.log && View(after, c) == MovedView(View(db, c), src, dst)
  {
    var after := Renamed(db, src, dst);
    assert OrdersOn(after.orders.rows, c) == MovedOrders(OrdersOn(db.orders.rows, c), src, dst);
    assert Days(after.meals, c) == Days(db.meals, c) by {
      assert after.meals.Keys == db.meals.Keys;
      forall d ensures d in Days(after.meals, c) <==> d in Days(db.meals, c) {
        assert MealKey(c, d) in after.meals <==> d in Days(after.meals, c);
        assert MealKey(c, d) in db.meals <==> d in Days(db.meals, c);
      }
    }
    if AwaitsVerification(db.requests.rows, c) {
      var s :| s in db.requests.rows && db.requests.rows[s].status.Open? && db.requests.rows[s].card == Some(c);
      assert after.requests.rows[s].status.Open? && after.requests.rows[s].card == Some(c);
    }
  }

  lemma RenamedRequestsOk(db: Db, src: nat, dst: nat)
    requires RequestsOk(db.cards.rows, db.requests.rows) && OneOpenPerKind(MovedRequests(db.requests, src, dst).rows)
    ensures RequestsOk(Renamed(db, src, dst).cards.rows, Renamed(db, src, dst).requests.rows)
  {
    var after := Renamed(db, src, dst);
    forall r | r in after.requests.rows ensures RequestFits(after.cards.rows, after.requests.rows[r]) {
      assert RequestFits(db.cards.rows, db.requests.rows[r]);
    }
    assert forall r :: r in db.requests.rows ==> after.requests.rows[r].card == db.requests.rows[r].card;
    SameClaimsUnique(after.requests.rows, MovedRequests(db.requests, src, dst).rows);
  }

  lemma RenamedKeeps(db: Db, src: nat, dst: nat)
    requires Inv(db) && OneOpenPerKind(MovedRequests(db.requests, src, dst).rows)
    ensures Inv(Renamed(db, src, dst))
  {
    hide CardOk;
    var after := Renamed(db, src, dst);
    RenamedRequestsOk(db, src, dst);
    forall o | o in after.orders.rows ensures OrderLinked(after.cards.rows, after.orders.rows[o]) {
      assert OrderLinked(db.cards.rows, db.orders.rows[o]);
    }
    assert after.orders.Valid() && after.cards.Valid() && after.requests.Valid();
    forall c | c in after.cards.rows ensures CardOk(View(after, c)) {
      RenamedView(db, src, dst, c);
      MoveKeeps(View(db, c), src, dst);
    }
  }

  lemma UsersDoNotMatter(db: Db, users: Table<User>)
    requires Inv(db) && users.Valid()
    ensures Inv(db.(users := users))
  {
    hide CardOk;
    var after := db.(users := users);
    forall c | c in after.cards.rows ensures CardOk(View(after, c)) {
      assert View(after, c) == View(db, c);
    }
  }

  // ----- Merge -----

  predicate BothOpen(requests: map<nat, Request>, src: nat, dst: nat) {
    exists r, s ::
      r in requests && s in requests && IsOpenOf(requests[r], src) && IsOpenOf(requests[s], dst) && requests[r].kind
        == requests[s].kind
  }

  lemma ClashExactly(requests: Table<Request>, src: nat, dst: nat)
    requires OneOpenPerKind(requests.rows) && src != dst
    ensures OneOpenPerKind(MovedRequests(requests, src, dst).rows) <==> !BothOpen(requests.rows, src, dst)
  {
    var moved := MovedRequests(requests, src, dst).rows;
    if BothOpen(requests.rows, src, dst) {
      var r, s :| r in requests.rows && s in requests.rows && IsOpenOf(requests.rows[r],
          src) && IsOpenOf(requests.rows[s], dst)
        && requests.rows[r].kind == requests.rows[s].kind;
      assert moved[r].user == moved[s].user && r != s;
    }
  }

  /** The checks on the two accounts that come before anything is moved. */
  predicate MergeAllowed(db: Db, src: nat, dst: nat, actor: nat) {
    && src != dst && src != actor && dst != actor && src in db.users.rows && dst in db.users.rows
    && db.users.rows[src].login.Some? && !IsSystem(db.users.rows[src].login) && db.users.rows[dst].google
  }

  function MergedUsers(db: Db, src: nat, dst: nat): Table<User> {
    var kept := KeepMatroos(db, src, dst).users;
    kept.(rows := kept.rows - {src})
  }

  /** An allowed merge is refused exactly when both accounts hold an open request of the same kind; otherwise it renames
      every reference and removes the account, and the removal cascades to nothing. */
  lemma MergeOutcome(db: Db, src: nat, dst: nat, actor: nat)
    requires Inv(db)
    ensures MergeAllowed(db, src, dst, actor) ==>
      Merge(db, src, dst, actor) == if BothOpen(db.requests.rows, src, dst) then Err(MergeConflict)
                                    else Ok(Renamed(db, src, dst).(users := MergedUsers(db, src, dst)))
    ensures !MergeAllowed(db, src, dst, actor) ==>
      Merge(db, src, dst, actor).Err? && Merge(db, src, dst, actor) != Err(MergeConflict)
  {
    hide CardsOk, RequestsOk;
    if MergeAllowed(db, src, dst, actor) {
      assert OneOpenPerKind(db.requests.rows) by { OpenUnique(db); }
      ReassignOutcome(db, src, dst);
      if !BothOpen(db.requests.rows, src, dst) { RemovedAfterMove(db, src, dst); }
    }
  }

  lemma OpenUnique(db: Db)
    requires Inv(db)
    ensures OneOpenPerKind(db.requests.rows)
  {
    hide CardsOk;
  }

  lemma ReassignOutcome(db: Db, src: nat, dst: nat)
    requires OneOpenPerKind(db.requests.rows) && src != dst
    ensures Reassign(db, COLUMNS, src, dst)
      == if BothOpen(db.requests.rows, src, dst) then Err(MergeConflict) else Ok(Renamed(db, src, dst))
  {
    ClashExactly(db.requests, src, dst);
    ReassignRuns(db, COLUMNS, src, dst);
    assert RequestUser in COLUMNS by { assert COLUMNS[3] == RequestUser; }
    ColumnsRename(db, src, dst);
  }

  lemma RemovedAfterMove(db: Db, src: nat, dst: nat)
    requires src != dst
    ensures DeleteUserRow(KeepMatroos(Renamed(db, src, dst), src, dst), src)
      == Renamed(db, src, dst).(users := MergedUsers(db, src, dst))
  {
    var kept := KeepMatroos(Renamed(db, src, dst), src, dst);
    NothingLeftBehind(db, src, dst);
    MentionsIgnoresUsers(Renamed(db, src, dst), kept.users, src);
    DeleteCascadesToNothing(kept, src);
  }

  lemma MentionsIgnoresUsers(db: Db, users: Table<User>, u: nat)
    ensures Mentions(db.(users := users), u) == Mentions(db, u)
  {}

  lemma MergeKeeps(db: Db, src: nat, dst: nat, actor: nat)
    requires Inv(db) && Merge(db, src, dst, actor).Ok?
    ensures Inv(Merge(db, src, dst, actor).value)
    ensures !Mentions(Merge(db, src, dst, actor).value, src)
  {
    hide CardsOk;
    MergeOutcome(db, src, dst, actor);
    assert MergeAllowed(db, src, dst, actor);
    ClashExactly(db.requests, src, dst);
    RenamedKeeps(db, src, dst);
    UsersDoNotMatter(Renamed(db, src, dst), MergedUsers(db, src, dst));
    NothingLeftBehind(db, src, dst);
    hide Mentions;
    MentionsIgnoresUsers(Renamed(db, src, dst), MergedUsers(db, src, dst), src);
  }

  // ----- Delete -----

  predicate DeleteAllowed(db: Db, user: nat, actor: nat) {
    user != actor && user in db.users.rows && !IsSystem(db.users.rows[user].login) && db.users.rows[user].disabled
  }

  /** The database after open work of `user` has been cancelled and the placeholder account exists. */
  function Closed(db: Db, user: nat, actor: nat): (Db, nat) {
    WithPlaceholder(CancelOrdersOf(Withdraw(db, OpenOf(db.requests.rows, user)), user, actor))
  }

  lemma ClosedKeeps(db: Db, user: nat, actor: nat)
    requires Inv(db)
    ensures Inv(Closed(db, user, actor).0)
  {
    hide CardsOk;
    var withdrawn := Withdraw(db, OpenOf(db.requests.rows, user));
    WithdrawKeeps(db, OpenOf(db.requests.rows, user));
    var cancelled := CancelOrdersOf(withdrawn, user, actor);
    CancelOrdersKeeps(withdrawn, user, actor);
    UsersDoNotMatter(cancelled, WithPlaceholder(cancelled).0.users);
  }

  function CancelledOn(orders: map<nat, Order>, actor: nat): map<nat, Order> {
    map o | o in orders :: if orders[o].status.Pending? then orders[o].(status := Cancelled(Some(actor))) else orders[o]
  }

  lemma CancelAllOnCard(v: CardView, actor: nat)
    requires CardOk(v)
    ensures CardOk(v.(orders := CancelledOn(v.orders, actor)))
  {
    var orders := CancelledOn(v.orders, actor);
    TotalZero(orders, PendingQuantity, v.n);
    TotalCongruent(v.orders, NetDelivered(v.lines), orders, NetDelivered(v.lines), v.n);
    WeightsNonNegative(v.card.kind, v.card.source, v.lines);
    CancelledDeliveries(v.IsOnline(), v.lines, v.orders, actor);
  }

  lemma CancelledDeliveries(online: bool, lines: seq<Line>, orders: map<nat, Order>, actor: nat)
    requires DeliveriesFit(online, lines, orders)
    ensures DeliveriesFit(online, lines, CancelledOn(orders, actor))
  {
    forall i | 0 <= i < |lines| && lines[i].reason
      == TostiDelivered ensures DeliveryFits(online, CancelledOn(orders, actor), lines[i]) {
      assert DeliveryFits(online, orders, lines[i]);
    }
  }

  lemma CancelledView(db: Db, user: nat, actor: nat, c: nat)
    requires Shape(db) && c in db.cards.rows && CardOk(View(db, c))
    ensures var after := CancelOrdersOf(db, user, actor); var v := View(db, c);
      View(after, c) == if v.card.owner == user then v.(orders := CancelledOn(v.orders, actor)) else v
  {
    hide CardOk;
    var after := CancelOrdersOf(db, user, actor);
    var v := View(db, c);
    forall o | o in v.orders ensures v.orders[o].user == v.card.owner { CardOrderFits(v, o); }
    assert OrdersOn(after.orders.rows, c) == if v.card.owner == user then CancelledOn(v.orders, actor) else v.orders;
  }

  lemma CancelOrdersKeeps(db: Db, user: nat, actor: nat)
    requires Inv(db)
    ensures Inv(CancelOrdersOf(db, user, actor))
  {
    hide CardOk;
    var after := CancelOrdersOf(db, user, actor);
    forall o | o in after.orders.rows ensures OrderLinked(after.cards.rows, after.orders.rows[o]) {
      assert OrderLinked(db.cards.rows, db.orders.rows[o]);
    }
    forall c | c in after.cards.rows ensures CardOk(View(after, c)) {
      CancelledView(db, user, actor, c);
      CancelAllOnCard(View(db, c), actor);
    }
  }

  /** A deletion that is allowed is never refused: the account no longer has an open request to clash with. */
  lemma DeleteOutcome(db: Db, user: nat, actor: nat)
    requires Inv(db)
    ensures DeleteAllowed(db, user, actor) ==>
      var (closed, placeholder) := Closed(db, user, actor);
      && placeholder != user
      && DeleteUser(db, user, actor) ==
           Ok(Renamed(closed, user, placeholder).(users := closed.users.(rows := closed.users.rows - {user})))
      && OneOpenPerKind(MovedRequests(closed.requests, user, placeholder).rows)
    ensures !DeleteAllowed(db, user, actor) ==> DeleteUser(db, user, actor).Err?
  {
    hide CardsOk;
    if DeleteAllowed(db, user, actor) {
      var (closed, placeholder) := Closed(db, user, actor);
      ClosedKeeps(db, user, actor);
      assert placeholder != user by { assert user < db.users.next; }
      NoOpenLeft(db, user, actor);
      ClashExactly(closed.requests, user, placeholder);
      ReassignOutcome(closed, user, placeholder);
      NothingLeftBehind(closed, user, placeholder);
      DeleteCascadesToNothing(Renamed(closed, user, placeholder), user);
    }
  }

  lemma NoOpenLeft(db: Db, user: nat, actor: nat)
    requires OneRequestPerCard(db.requests.rows)
    ensures forall r :: r in Closed(db, user, actor).0.requests.rows ==>
      !IsOpenOf(Closed(db, user, actor).0.requests.rows[r], user)
  {
    var rs := OpenOf(db.requests.rows, user);
    forall r | r in db.requests.rows ensures !IsOpenOf(Withdraw(db, rs).requests.rows[r], user) {
      WithdrawnRow(db, rs, r);
    }
  }

  lemma DeleteKeeps(db: Db, user: nat, actor: nat)
    requires Inv(db) && DeleteUser(db, user, actor).Ok?
    ensures Inv(DeleteUser(db, user, actor).value)
    ensures !Mentions(DeleteUser(db, user, actor).value, user)
  {
    hide CardsOk;
    DeleteOutcome(db, user, actor);
    var (closed, placeholder) := Closed(db, user, actor);
    ClosedKeeps(db, user, actor);
    RenamedKeeps(closed, user, placeholder);
    var users := closed.users.(rows := closed.users.rows - {user});
    UsersDoNotMatter(Renamed(closed, user, placeholder), users);
    NothingLeftBehind(closed, user, placeholder);
    MentionsIgnoresUsers(Renamed(closed, user, placeholder), users, user);
  }

  // ----- What the reports see -----

  /** Turnover of a month: prices of the sales fulfilled in it. */
  function SalesIn(month: int): (nat, Request) -> int {
    (r, row: Request) => if row.status.Fulfilled? && row.status.month == month then PriceOf(row) else 0
  }

  function DeliveredQuantity(o: nat, row: Order): int { if row.status.Delivered? then row.quantity else 0 }

  function Balance(c: nat, card: Card): int { card.knipjes }

  function Sales(db: Db, month: int): int { Total(db.requests.rows, SalesIn(month), db.requests.next) }
  function DeliveredTostis(db: Db): int { Total(db.orders.rows, DeliveredQuantity, db.orders.next) }
  function OutstandingKnipjes(db: Db): int { Total(db.cards.rows, Balance, db.cards.next) }

  lemma RenamedReports(db: Db, src: nat, dst: nat, month: int)
    ensures Sales(Renamed(db, src, dst), month) == Sales(db, month)
    ensures DeliveredTostis(Renamed(db, src, dst)) == DeliveredTostis(db)
    ensures OutstandingKnipjes(Renamed(db, src, dst)) == OutstandingKnipjes(db)
  {
    var after := Renamed(db, src, dst);
    TotalCongruent(db.requests.rows, SalesIn(month), after.requests.rows, SalesIn(month), db.requests.next);
    TotalCongruent(db.orders.rows, DeliveredQuantity, after.orders.rows, DeliveredQuantity, db.orders.next);
    TotalCongruent(db.cards.rows, Balance, after.cards.rows, Balance, db.cards.next);
  }

  /** A merge changes no report. */
  lemma MergeReports(db: Db, src: nat, dst: nat, actor: nat, month: int)
    requires Inv(db) && Merge(db, src, dst, actor).Ok?
    ensures var after := Merge(db, src, dst, actor).value;
      Sales(after, month) == Sales(db, month) && DeliveredTostis(after)
        == DeliveredTostis(db) && OutstandingKnipjes(after) == OutstandingKnipjes(db)
  {
    hide CardsOk;
    MergeOutcome(db, src, dst, actor);
    RenamedReports(db, src, dst, month);
  }

  /** The open requests among `rs` that hold an (inactive) card. */
  function WithCard(requests: map<nat, Request>, rs: set<nat>): set<nat> {
    set r | r in rs && r in requests && requests[r].card.Some?
  }

  lemma OneCardMore(requests: map<nat, Request>, rest: set<nat>, r: nat)
    requires OneRequestPerCard(requests) && r !in rest
    ensures |CardsOf(requests, rest + {r})| - |CardsOf(requests, rest)|
      == |WithCard(requests, rest + {r})| - |WithCard(requests, rest)|
  {
    if r in requests && requests[r].card.Some? {
      var c := requests[r].card.value;
      assert c !in CardsOf(requests, rest);
      assert CardsOf(requests, rest + {r}) == CardsOf(requests, rest) + {c};
      assert WithCard(requests, rest + {r}) == WithCard(requests, rest) + {r};
    } else {
      assert CardsOf(requests, rest + {r}) == CardsOf(requests, rest);
      assert WithCard(requests, rest + {r}) == WithCard(requests, rest);
    }
  }

  lemma {:induction false} OneCardEach(requests: map<nat, Request>, rs: set<nat>)
    requires OneRequestPerCard(requests)
    ensures |CardsOf(requests, rs)| == |WithCard(requests, rs)|
    decreases |rs|
  {
    if r :| r in rs {
      var rest := rs - {r};
      OneCardEach(requests, rest);
      OneCardMore(requests, rest, r);
      assert rs == rest + {r};
    } else {
      assert CardsOf(requests, rs) == {} && WithCard(requests, rs) == {};
    }
  }

  /** Dropping full cards lowers the outstanding total by ten each. */
  lemma {:induction false} DropFullCards(cards: map<nat, Card>, gone: set<nat>, n: nat)
    requires forall c :: c in gone ==> c < n && c in cards && cards[c].knipjes == FULL_CARD
    ensures Total(map c | c in cards && c !in gone :: cards[c], Balance, n)
      == Total(cards, Balance, n) - FULL_CARD * |gone|
    decreases |gone|
  {
    var left := map c | c in cards && c !in gone :: cards[c];
    if c :| c in gone {
      var fewer := gone - {c};
      DropFullCards(cards, fewer, n);
      TotalChange(map d | d in cards && d !in fewer :: cards[d], Balance, left, Balance, n, c);
      assert |gone| == |fewer| + 1;
    } else {
      TotalCongruent(left, Balance, cards, Balance, n);
    }
  }

  /** The cards of open requests are full, and nothing was delivered on them. */
  lemma OpenCardsUntouched(db: Db, rs: set<nat>, c: nat)
    requires Inv(db) && (forall r :: r in rs ==> r in db.requests.rows && db.requests.rows[r].status.Open?)
    requires c in CardsOf(db.requests.rows, rs)
    ensures c in db.cards.rows && 0 < c < db.cards.next && db.cards.rows[c].knipjes == FULL_CARD
      && db.cards.rows[c].source == Online
    ensures |db.log[c]| == 1 && (forall k :: k in db.meals ==> k.card != c)
    ensures forall o :: o in db.orders.rows && db.orders.rows[o].card == Some(c) ==>
      !db.orders.rows[o].status.Delivered?
  {
    hide CardOk;
    var r :| r in rs && r in db.requests.rows && db.requests.rows[r].card == Some(c);
    assert RequestFits(db.cards.rows, db.requests.rows[r]);
    var v := View(db, c);
    assert v.open;
    OpenMeansUntouched(v);
    assert forall k :: k in db.meals && k.card == c ==> k.day in Days(db.meals, c);
    forall o | o in db.orders.rows && db.orders.rows[o].card == Some(c) ensures !db.orders.rows[o].status.Delivered? {
      assert o in v.orders;
    }
  }

  /** Withdrawing open requests erases no sale and no delivery, and takes ten knipjes per inactive card out of
      circulation. */
  lemma WithdrawReports(db: Db, rs: set<nat>, month: int)
    requires Inv(db) && forall r :: r in rs ==> r in db.requests.rows && db.requests.rows[r].status.Open?
    ensures var after := Withdraw(db, rs);
      && Sales(after, month) == Sales(db, month) && DeliveredTostis(after) == DeliveredTostis(db)
      && OutstandingKnipjes(after) == OutstandingKnipjes(db) - FULL_CARD * |WithCard(db.requests.rows, rs)|
  {
    hide CardsOk;
    var after := Withdraw(db, rs);
    var gone := CardsOf(db.requests.rows, rs);
    forall r | r in db.requests.rows ensures Share(after.requests.rows, SalesIn(month), r)
      == Share(db.requests.rows, SalesIn(month), r) {
      WithdrawnRow(db, rs, r);
    }
    TotalCongruent(db.requests.rows, SalesIn(month), after.requests.rows, SalesIn(month), db.requests.next);
    forall c | c in gone
      ensures c in db.cards.rows && c < db.cards.next && db.cards.rows[c].knipjes == FULL_CARD
      ensures forall o :: o in db.orders.rows && db.orders.rows[o].card == Some(c) ==>
        !db.orders.rows[o].status.Delivered?
    {
      OpenCardsUntouched(db, rs, c);
    }
    TotalCongruent(db.orders.rows, DeliveredQuantity, after.orders.rows, DeliveredQuantity, db.orders.next);
    DropFullCards(db.cards.rows, gone, db.cards.next);
    OneCardEach(db.requests.rows, rs);
  }

  lemma ClosedReports(db: Db, user: nat, actor: nat, month: int)
    requires Inv(db)
    ensures var closed := Closed(db, user, actor).0;
      && Sales(closed, month) == Sales(db, month) && DeliveredTostis(closed) == DeliveredTostis(db)
      && OutstandingKnipjes(closed) == OutstandingKnipjes(db)
           - FULL_CARD * |WithCard(db.requests.rows, OpenOf(db.requests.rows, user))|
  {
    hide CardsOk;
    var rs := OpenOf(db.requests.rows, user);
    WithdrawReports(db, rs, month);
    var withdrawn := Withdraw(db, rs);
    var cancelled := CancelOrdersOf(withdrawn, user, actor);
    TotalCongruent(withdrawn.orders.rows, DeliveredQuantity, cancelled.orders.rows, DeliveredQuantity,
        withdrawn.orders.next);
  }

  /** Deleting an account changes no turnover and no delivered total, and lowers the outstanding knipjes by exactly ten
      for each of its open requests with a card. */
  lemma DeleteReports(db: Db, user: nat, actor: nat, month: int)
    requires Inv(db) && DeleteUser(db, user, actor).Ok?
    ensures var after := DeleteUser(db, user, actor).value;
      && Sales(after, month) == Sales(db, month) && DeliveredTostis(after) == DeliveredTostis(db)
      && OutstandingKnipjes(after) == OutstandingKnipjes(db)
           - FULL_CARD * |WithCard(db.requests.rows, OpenOf(db.requests.rows, user))|
  {
    hide CardsOk;
    DeleteOutcome(db, user, actor);
    ClosedReports(db, user, actor, month);
    hide Closed, DeleteUser;
    var (closed, placeholder) := Closed(db, user, actor);
    RenamedReports(closed, user, placeholder, month);
  }
}
