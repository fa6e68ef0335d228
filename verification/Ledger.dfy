/** Tables of the kraam's card administration, and the meaning of every operation on them as one atomic step. */
module Ledger {
  import opened Prelude
  import opened Journal

  datatype Kind = Tosti | Avondeten
  datatype Source = Online | Physical

  datatype User = User(login: Option<string>, google: bool, matroos: bool, disabled: bool)
  datatype Card = Card(owner: nat, kind: Kind, source: Source, knipjes: int)

  /** `month` is the Amsterdam calendar month of fulfilled_at. */
  datatype RequestStatus = Open | Fulfilled(who: Option<nat>, month: int) | Withdrawn

  /** `price` is the nullable column sale_price_eur, in cents. */
  datatype Request = Request(user: nat, kind: Kind, status: RequestStatus, card: Option<nat>, trustUsed: nat,
      price: Option<int>)

  datatype Bread = Wit | Bruin
  datatype Filling = Ham | Kaas | HamKaas
  datatype OrderStatus = Pending | Delivered(who: Option<nat>) | Cancelled(who: Option<nat>)
  datatype Order = Order(user: nat, card: Option<nat>, bread: Bread, filling: Filling, quantity: int, remark: string,
      status: OrderStatus)

  /** avondeten_meals is keyed by its UNIQUE (card_id, meal_date); the value is recorded_by_user_id. */
  datatype MealKey = MealKey(card: nat, day: int)

  /** The created_by columns of the four tables that otherwise lie outside this module. */
  datatype BookTable = BankCredits | FinanceCorrections | ImportReviews | ShopExpenses
  datatype BookKey = BookKey(table: BookTable, id: nat)

  datatype Db = Db(
    users: Table<User>, cards: Table<Card>, requests: Table<Request>, orders: Table<Order>,
    meals: map<MealKey, Option<nat>>, log: map<nat, seq<Line>>, books: map<BookKey, Option<nat>>)

  datatype Error =
    | NotFound | Forbidden | AlreadyPending | NoKnipjes | MissingRow
    | CannotCancelTrustUsed | CannotRejectKnipjesUsed
    | CardNotForTosti | CardPhysicalReadonly | CardNotVerified
    | OrderNotPending | OrderWrongUser | InvalidBread | InvalidFilling | InvalidQuantity | InvalidRemark
    | TxNotUndoable | TxAlreadyUndone | UndoOutOfRange | CardNotPhysical | EstimateOutOfRange
    | MealAlreadyRegistered | WrongCardKind
    | CannotChangeSelf | MergeSourceNotLocal | MergeTargetNotGoogle | MergeConflict | UserNotDisabled | SystemUser

  type Outcome<T> = Result<T, Error>

  const FULL_CARD := 10
  const QUANTITY_MIN := 1
  const QUANTITY_MAX := 10
  const REMARK_MAX := 500
  const DELETED_MEMBERS := "verwijderd-lid"

  // ----- Queries -----

  predicate AwaitsVerification(requests: map<nat, Request>, c: nat) {
    exists r :: r in requests && requests[r].status.Open? && requests[r].card == Some(c)
  }

  predicate HasOpenRequest(requests: map<nat, Request>, user: nat, kind: Kind) {
    exists r :: r in requests && requests[r].status.Open? && requests[r].user == user && requests[r].kind == kind
  }

  /** The partial unique index card_requests_one_pending_per_user_kind. */
  predicate OneOpenPerKind(requests: map<nat, Request>) {
    forall r, s ::
      (r in requests && s in requests && requests[r].status.Open? && requests[s].status.Open?
       && requests[r].user == requests[s].user && requests[r].kind == requests[s].kind) ==> r == s
  }

  function PendingOn(c: nat): (nat, Order) -> int {
    (id, o: Order) => if o.card == Some(c) && o.status.Pending? then o.quantity else 0
  }

  /** SUM(quantity) over the open orders of `user` on card `c`. */
  function PendingOf(user: nat, c: nat): (nat, Order) -> int {
    (id, o: Order) => if o.user == user && o.card == Some(c) && o.status.Pending? then o.quantity else 0
  }

  predicate IsPhysicalTosti(card: Card, user: nat) {
    card.owner == user && card.kind == Tosti && card.source == Physical
  }

  /** Ids follow created_at, so the oldest card has the smallest id. */
  function OldestWithEstimate(cards: map<nat, Card>, user: nat, n: nat): (r: Option<nat>)
    ensures r.None? ==> forall c :: c in cards && c < n && IsPhysicalTosti(cards[c], user) ==> cards[c].knipjes <= 0
    ensures r.Some? ==> r.value in cards && IsPhysicalTosti(cards[r.value], user) && cards[r.value].knipjes > 0
    ensures r.Some? ==> forall c :: c in cards && c < r.value && IsPhysicalTosti(cards[c], user) ==>
      cards[c].knipjes <= 0
  {
    if n == 0 then None
    else
      var r := OldestWithEstimate(cards, user, n - 1);
      if r.Some? then r
      else if n - 1 in cards && IsPhysicalTosti(cards[n - 1], user) && cards[n - 1].knipjes > 0 then Some(n - 1)
      else None
  }

  function NewestPhysical(cards: map<nat, Card>, user: nat, n: nat): (r: Option<nat>)
    ensures r.None? ==> forall c :: c in cards && c < n ==> !IsPhysicalTosti(cards[c], user)
    ensures r.Some? ==> r.value < n && r.value in cards && IsPhysicalTosti(cards[r.value], user)
    ensures r.Some? ==> forall c :: c in cards && r.value < c < n ==> !IsPhysicalTosti(cards[c], user)
  {
    if n == 0 then None
    else if n - 1 in cards && IsPhysicalTosti(cards[n - 1], user) then Some(n - 1)
    else NewestPhysical(cards, user, n - 1)
  }

  /** The oldest physical tostikaart with an estimate left, otherwise the newest one. */
  function FindPhysicalTostiCard(cards: Table<Card>, user: nat): Option<nat> {
    var best := OldestWithEstimate(cards.rows, user, cards.next);
    if best.Some? then best else NewestPhysical(cards.rows, user, cards.next)
  }

  function ParseBread(s: string): Outcome<Bread> {
    if s == "wit" then Ok(Wit) else if s == "bruin" then Ok(Bruin) else Err(InvalidBread)
  }

  function ParseFilling(s: string): Outcome<Filling> {
    if s == "ham" then Ok(Ham) else if s == "kaas" then Ok(Kaas) else if s == "ham_kaas" then
      Ok(HamKaas) else Err(InvalidFilling)
  }

  /** What a row adds to SUM(sale_price_eur), which skips NULL. */
  function PriceOf(row: Request): int { if row.price.Some? then row.price.value else 0 }

  // ----- Row changes that several operations share -----

  /** A new card with its issued line; the card's id is the old `db.cards.next`. */
  function Issue(db: Db, card: Card, actor: Option<nat>): Db {
    db.(cards := db.cards.Insert(card),
        log := db.log[db.cards.next := [Plain(card.knipjes, card.knipjes, Issued, actor)]])
  }

  function Lines(log: map<nat, seq<Line>>, c: nat): seq<Line> {
    if c in log then log[c] else []
  }

  /** Set the balance of card `c` and log the line that explains it. */
  function Book(db: Db, c: nat, line: Line): Db
    requires c in db.cards.rows
  {
    db.(cards := db.cards.Put(c, db.cards.rows[c].(knipjes := line.balanceAfter)),
        log := db.log[c := Lines(db.log, c) + [line]])
  }

  function SetRequest(db: Db, r: nat, row: Request): Db {
    db.(requests := db.requests.Put(r, row))
  }

  function SetOrder(db: Db, o: nat, row: Order): Db {
    db.(orders := db.orders.Put(o, row))
  }

  predicate OnCards(card: Option<nat>, gone: set<nat>) {
    card.Some? && card.value in gone
  }

  /** DELETE FROM cards: orders, log lines and meals cascade, card_requests.card_id becomes NULL. */
  function DeleteCards(db: Db, gone: set<nat>): Db {
    db.(cards := Table(map c | c in db.cards.rows && c !in gone :: db.cards.rows[c], db.cards.next),
        requests := Table(map r | r in db.requests.rows ::
          (if OnCards(db.requests.rows[r].card,
              gone) then db.requests.rows[r].(card := None) else db.requests.rows[r]), db.requests.next),
        orders := Table(map o | o in db.orders.rows && !OnCards(db.orders.rows[o].card, gone) :: db.orders.rows[o],
            db.orders.next),
        meals := map k | k in db.meals && k.card !in gone :: db.meals[k],
        log := map c | c in db.log && c !in gone :: db.log[c])
  }

  // ----- Card requests and sales -----

  function BuyerError(db: Db, user: nat, kind: Kind): Option<Error> {
    if user !in db.users.rows then Some(NotFound)
    else if kind == Avondeten && !db.users.rows[user].matroos then Some(Forbidden)
    else if HasOpenRequest(db.requests.rows, user, kind) then Some(AlreadyPending)
    else None
  }

  function AddRequest(db: Db, row: Request): Db {
    db.(requests := db.requests.Insert(row))
  }

  /** The inserts of a card request: the foreign key needs the user, the unique index refuses a second open request. */
  function PlaceRequest(db: Db, user: nat, kind: Kind): Outcome<Db> {
    if user !in db.users.rows then Err(MissingRow)
    else if HasOpenRequest(db.requests.rows, user, kind) then Err(AlreadyPending)
    else Ok(AddRequest(Issue(db, Card(user, kind, Online, FULL_CARD), None),
                       Request(user, kind, Open, Some(db.cards.next), 0, None)))
  }

  function RequestCard(db: Db, user: nat, kind: Kind): Outcome<Db> {
    var e := BuyerError(db, user, kind);
    if e.Some? then Err(e.value) else PlaceRequest(db, user, kind)
  }

  /** The inserts of a sale over the counter: only the foreign key can refuse them. */
  function PlaceSale(db: Db, buyer: nat, seller: nat, kind: Kind, price: int, month: int): Outcome<Db> {
    if buyer !in db.users.rows then Err(MissingRow)
    else Ok(AddRequest(Issue(db, Card(buyer, kind, Physical, FULL_CARD), Some(seller)),
                       Request(buyer, kind, Fulfilled(Some(seller), month), Some(db.cards.next), 0, Some(price))))
  }

  function SellPhysical(db: Db, buyer: nat, seller: nat, kind: Kind, price: int, month: int): Outcome<Db> {
    var e := BuyerError(db, buyer, kind);
    if e.Some? then Err(e.value) else PlaceSale(db, buyer, seller, kind, price, month)
  }

  /** The request row once it is a sale. */
  function SoldRow(row: Request, admin: nat, price: int, month: int, card: Option<nat>): Request {
    row.(status := Fulfilled(Some(admin), month), price := Some(price), card := card)
  }

  function Fulfil(db: Db, r: nat, admin: nat, price: int, month: int): Outcome<Db> {
    if r !in db.requests.rows then Err(NotFound)
    else
      var row := db.requests.rows[r];
      if !row.status.Open? then Err(Forbidden)
      else if row.card.Some? then Ok(SetRequest(db, r, SoldRow(row, admin, price, month, row.card)))
      else Ok(SetRequest(Issue(db, Card(row.user, row.kind, Online, FULL_CARD - row.trustUsed), Some(admin)), r,
                         SoldRow(row, admin, price, month, Some(db.cards.next))))
  }

  /** Cancel the requests `rs` and drop their inactive cards. */
  function Withdraw(db: Db, rs: set<nat>): Db {
    var cancelled := db.(requests := Table(map r | r in db.requests.rows ::
      (if r in rs then db.requests.rows[r].(status := Withdrawn) else db.requests.rows[r]), db.requests.next));
    DeleteCards(cancelled, CardsOf(db.requests.rows, rs))
  }

  function CardsOf(requests: map<nat, Request>, rs: set<nat>): set<nat> {
    set r | r in rs && r in requests && requests[r].card.Some? :: requests[r].card.value
  }

  function Reject(db: Db, r: nat): Outcome<Db> {
    if r !in db.requests.rows || !db.requests.rows[r].status.Open? then Err(NotFound)
    else
      var row := db.requests.rows[r];
      if row.card.Some? then
        if row.card.value !in db.cards.rows then Err(MissingRow)
        else if db.cards.rows[row.card.value].knipjes < FULL_CARD then Err(CannotRejectKnipjesUsed)
        else Ok(Withdraw(db, {r}))
      else if row.trustUsed > 0 then Err(CannotRejectKnipjesUsed)
      else Ok(Withdraw(db, {r}))
  }

  function CancelRequest(db: Db, r: nat, user: nat): Outcome<Db> {
    if r !in db.requests.rows || !db.requests.rows[r].status.Open? || db.requests.rows[r].user != user then
      Err(NotFound)
    else
      var card := db.requests.rows[r].card;
      if card.None? then Err(NotFound)
      else if card.value !in db.cards.rows then Err(MissingRow)
      else if db.cards.rows[card.value].knipjes < FULL_CARD then Err(CannotCancelTrustUsed)
      else Ok(Withdraw(db, {r}))
  }

  predicate IsOpenOf(row: Request, user: nat) { row.status.Open? && row.user == user }

  /** COALESCE(c.knipjes_remaining, GREATEST(0, 10 - trust_knipjes_used)) of the outer join. */
  function KnipjesOf(db: Db, row: Request): int {
    if row.card.Some? && row.card.value in db.cards.rows then db.cards.rows[row.card.value].knipjes
    else if row.trustUsed > FULL_CARD then 0 else FULL_CARD - row.trustUsed
  }

  /** Why an open request stands in the way of cancelling them all. */
  function Obstacle(db: Db, row: Request): Option<Error> {
    if KnipjesOf(db, row) < FULL_CARD then Some(CannotCancelTrustUsed)
    else if row.card.None? then Some(NotFound)
    else None
  }

  function OpenOf(requests: map<nat, Request>, user: nat): set<nat> {
    set r | r in requests && IsOpenOf(requests[r], user)
  }

  function Obstacles(db: Db, user: nat): set<Error> {
    set r | r in OpenOf(db.requests.rows, user) && r in db.requests.rows && Obstacle(db, db.requests.rows[r]).Some?
      :: Obstacle(db, db.requests.rows[r]).value
  }

  /** The rows come in no particular order, so any obstacle may be the one that is reported. */
  function CancelAll(db: Db, user: nat): Result<Db, set<Error>> {
    var obstacles := Obstacles(db, user);
    if obstacles == {} then Ok(Withdraw(db, OpenOf(db.requests.rows, user))) else Err(obstacles)
  }

  // ----- Tosti orders -----

  function CreateOrder(db: Db, user: nat, card: Option<nat>, bread: string, filling: string, quantity: int,
      remark: string): Outcome<Db> {
    if |remark| > REMARK_MAX then Err(InvalidRemark)
    else if quantity < QUANTITY_MIN || quantity > QUANTITY_MAX then Err(InvalidQuantity)
    else
      var b := ParseBread(bread);
      if b.Err? then Err(b.error)
      else
        var f := ParseFilling(filling);
        if f.Err? then Err(f.error)
        else
          var row := Order(user, card, b.value, f.value, quantity, remark, Pending);
          if card.None? then Ok(db.(orders := db.orders.Insert(row)))
          else if card.value !in db.cards.rows || db.cards.rows[card.value].owner != user then Err(NotFound)
          else if db.cards.rows[card.value].kind != Tosti then Err(CardNotForTosti)
          else if db.cards.rows[card.value].source != Online then Err(CardPhysicalReadonly)
          else if Total(db.orders.rows, PendingOf(user, card.value),
              db.orders.next) + quantity > db.cards.rows[card.value].knipjes then Err(NoKnipjes)
          else Ok(db.(orders := db.orders.Insert(row)))
  }

  function CancelOrder(db: Db, o: nat, actor: nat, staff: bool): Outcome<Db> {
    if o !in db.orders.rows then Err(NotFound)
    else
      var row := db.orders.rows[o];
      if !row.status.Pending? then Err(OrderNotPending)
      else if !staff && row.user != actor then Err(OrderWrongUser)
      else Ok(SetOrder(db, o, row.(status := Cancelled(Some(actor)))))
  }

  function BalanceAfterDelivery(card: Card, quantity: int): int {
    if card.source == Physical && card.knipjes < quantity then 0 else card.knipjes - quantity
  }

  function DeliveryLine(card: Card, o: nat, quantity: int, who: nat): Line {
    var b := BalanceAfterDelivery(card, quantity);
    Line(b - card.knipjes, b, TostiDelivered, Some(who), Some(o), None, None, None)
  }

  function Deliver(db: Db, o: nat, who: nat): Outcome<Db> {
    if o !in db.orders.rows then Err(NotFound)
    else DeliverOn(db, o, FindPhysicalTostiCard(db.cards, db.orders.rows[o].user), who)
  }

  /** A delivery, given what the search for a physical card came up with; an order with a card of its own does not
      search. */
  function DeliverOn(db: Db, o: nat, found: Option<nat>, who: nat): Outcome<Db> {
    if o !in db.orders.rows then Err(NotFound)
    else
      var row := db.orders.rows[o];
      if !row.status.Pending? then Err(OrderNotPending)
      else if row.quantity < QUANTITY_MIN || row.quantity > QUANTITY_MAX then Err(InvalidQuantity)
      else
        var settled := if row.card.Some? then row.card else found;
        if settled.None? then Ok(SetOrder(db, o, row.(status := Delivered(Some(who)))))
        else
          var c := settled.value;
          if c !in db.cards.rows || db.cards.rows[c].owner != row.user || db.cards.rows[c].kind != Tosti then
            Err(NotFound)
          else if row.card.None? && db.cards.rows[c].source != Physical then Err(NotFound)
          else if db.cards.rows[c].source == Online && AwaitsVerification(db.requests.rows, c) then Err(CardNotVerified)
          else if db.cards.rows[c].source == Online && db.cards.rows[c].knipjes < row.quantity then Err(NoKnipjes)
          else Ok(SetOrder(Book(db, c, DeliveryLine(db.cards.rows[c], o, row.quantity, who)), o,
                           row.(status := Delivered(Some(who)), card := Some(c))))
  }

  // ----- Punches, meals, undo, estimates -----

  datatype Actor = Actor(id: nat, admin: bool, operator: bool)

  function PunchLine(card: Card, actor: nat): Line {
    Plain(-1, card.knipjes - 1, ManualKnipje, Some(actor))
  }

  function UseKnipje(db: Db, c: nat, actor: Option<Actor>): Outcome<Db> {
    if actor.None? || (!actor.value.admin && !actor.value.operator) then Err(Forbidden)
    else if c !in db.cards.rows then Err(NotFound)
    else if db.cards.rows[c].source == Physical then Err(CardPhysicalReadonly)
    else if db.cards.rows[c].knipjes <= 0 then Err(NoKnipjes)
    else if AwaitsVerification(db.requests.rows, c) then Err(CardNotVerified)
    else Ok(Book(db, c, PunchLine(db.cards.rows[c], actor.value.id)))
  }

  function MealLine(card: Card, day: int, who: nat): Line {
    Line(-1, card.knipjes - 1, AvondetenMeal, Some(who), None, Some(day), None, None)
  }

  function BookMeal(db: Db, c: nat, day: int, who: nat): Db
    requires c in db.cards.rows
  {
    Book(db, c, MealLine(db.cards.rows[c], day, who)).(meals := db.meals[MealKey(c, day) := Some(who)])
  }

  function MealError(db: Db, c: nat, day: int): Option<Error> {
    if c !in db.cards.rows then Some(NotFound)
    else if db.cards.rows[c].kind != Avondeten then Some(WrongCardKind)
    else if db.cards.rows[c].knipjes <= 0 then Some(NoKnipjes)
    else if AwaitsVerification(db.requests.rows, c) then Some(CardNotVerified)
    else if MealKey(c, day) in db.meals then Some(MealAlreadyRegistered)
    else None
  }

  /** The distinct positive ids of a selection. */
  function Selected(ids: seq<int>): set<nat> {
    set c: nat | c in ids && c > 0
  }

  function MealKeys(cs: set<nat>, day: int): set<MealKey> {
    set c | c in cs :: MealKey(c, day)
  }

  function WithMeals(meals: map<MealKey, Option<nat>>, cs: set<nat>, day: int, who: nat): map<MealKey, Option<nat>> {
    map k | k in meals.Keys + MealKeys(cs, day) :: if k.card in cs && k.day == day then Some(who) else meals[k]
  }

  /** One meal on every card of `cs`, all at once. */
  function BookMeals(db: Db, cs: set<nat>, day: int, who: nat): Db
    requires forall c :: c in cs ==> c in db.cards.rows
  {
    db.(cards := Table(map c | c in db.cards.rows ::
          (if c in cs then db.cards.rows[c].(knipjes := db.cards.rows[c].knipjes - 1) else db.cards.rows[c]),
              db.cards.next),
        log := map c | c in db.log.Keys + cs ::
          (if c in cs then Lines(db.log, c) + [MealLine(db.cards.rows[c], day, who)] else db.log[c]),
        meals := WithMeals(db.meals, cs, day, who))
  }

  /** The error of the first selected card, in list order, on which no meal can be booked. */
  function FirstRefusal(db: Db, ids: seq<int>, day: int): Option<Error> {
    if ids == [] then None
    else if ids[0] > 0 && MealError(db, ids[0], day).Some? then MealError(db, ids[0], day)
    else FirstRefusal(db, ids[1..], day)
  }

  function RegisterMeals(db: Db, ids: seq<int>, day: int, who: nat): Outcome<Db> {
    var e := FirstRefusal(db, ids, day);
    if e.Some? then Err(e.value)
    else
      FirstRefusalNone(db, ids, day);
      Ok(BookMeals(db, Selected(ids), day, who))
  }

  lemma {:induction false} FirstRefusalNone(db: Db, ids: seq<int>, day: int)
    ensures FirstRefusal(db, ids, day).None? <==> (forall c :: c in Selected(ids) ==> MealError(db, c, day).None?)
  {
    if ids != [] {
      FirstRefusalNone(db, ids[1..], day);
      assert forall id :: id in ids <==> id == ids[0] || id in ids[1..];
      assert ids[0] > 0 ==> ids[0] as nat in Selected(ids);
      assert forall c :: c in Selected(ids[1..]) ==> c in Selected(ids);
      assert forall c :: c in Selected(ids) ==> c == ids[0] || c in Selected(ids[1..]);
    }
  }

  /** A log line is addressed by its card and its position in that card's journal. */
  function UndoLineAt(db: Db, c: nat, i: nat, actor: nat): Outcome<Db> {
    if c !in db.log || i >= |db.log[c]| then Err(NotFound)
    else
      var line := db.log[c][i];
      if !Undoable(line.reason) then Err(TxNotUndoable)
      else if line.reversedBy.Some? then Err(TxAlreadyUndone)
      else if line.delta == 0 then Err(TxNotUndoable)
      else if c !in db.cards.rows then Err(NotFound)
      else
        var b := db.cards.rows[c].knipjes - line.delta;
        if b < 0 || b > FULL_CARD then Err(UndoOutOfRange)
        else Ok(db.(
          meals := if line.meal.Some? then db.meals - {MealKey(c, line.meal.value)} else db.meals,
          cards := db.cards.Put(c, db.cards.rows[c].(knipjes := b)),
          log := db.log[c := WithUndo(db.log[c], i, b, actor)]))
  }

  function EstimateLine(card: Card, value: int, actor: nat): Line {
    Plain(value - card.knipjes, value, EstimateAdjust, Some(actor))
  }

  function SetEstimate(db: Db, c: nat, value: int, actor: nat): Outcome<Db> {
    if value < 0 || value > FULL_CARD then Err(EstimateOutOfRange)
    else if c !in db.cards.rows then Err(NotFound)
    else if db.cards.rows[c].source != Physical then Err(CardNotPhysical)
    else if db.cards.rows[c].knipjes == value then Ok(db)
    else Ok(Book(db, c, EstimateLine(db.cards.rows[c], value, actor)))
  }

  // ----- Accounts -----

  predicate IsSystem(login: Option<string>) { login == Some(DELETED_MEMBERS) }

  function Moved(u: nat, src: nat, dst: nat): nat { if u == src then dst else u }
  function MovedOpt(u: Option<nat>, src: nat, dst: nat): Option<nat> {
    if u == Some(src) then Some(dst) else u
  }

  function MovedStatus(s: RequestStatus, src: nat, dst: nat): RequestStatus {
    if s.Fulfilled? then s.(who := MovedOpt(s.who, src, dst)) else s
  }

  /** The single-column foreign keys to users(id), in the catalog query's order (table, column). */
  datatype Column =
    | MealRecordedBy | CreditCreatedBy | RequestFulfilledBy | RequestUser | LogActor | CardUser
    | CorrectionCreatedBy | ReviewCreatedBy | ExpenseCreatedBy | OrderCancelledBy | OrderDeliveredBy | OrderUser

  const COLUMNS := [MealRecordedBy, CreditCreatedBy, RequestFulfilledBy, RequestUser, LogActor, CardUser,
    CorrectionCreatedBy, ReviewCreatedBy, ExpenseCreatedBy, OrderCancelledBy, OrderDeliveredBy, OrderUser]

  function MovedBooks(books: map<BookKey, Option<nat>>, table: BookTable, src: nat,
      dst: nat): map<BookKey, Option<nat>> {
    map k | k in books :: if k.table == table then MovedOpt(books[k], src, dst) else books[k]
  }

  function MovedRequests(t: Table<Request>, src: nat, dst: nat): Table<Request> {
    Table(map r | r in t.rows :: t.rows[r].(user := Moved(t.rows[r].user, src, dst)), t.next)
  }

  function MovedLine(l: Line, src: nat, dst: nat): Line { l.(actor := MovedOpt(l.actor, src, dst)) }

  function MovedLines(lines: seq<Line>, src: nat, dst: nat): seq<Line> {
    seq(|lines|, i requires 0 <= i < |lines| => MovedLine(lines[i], src, dst))
  }

  /** UPDATE one column SET dst WHERE src. */
  function MoveColumn(db: Db, col: Column, src: nat, dst: nat): Db {
    match col
    case MealRecordedBy => db.(meals := map k | k in db.meals :: MovedOpt(db.meals[k], src, dst))
    case CreditCreatedBy => db.(books := MovedBooks(db.books, BankCredits, src, dst))
    case RequestFulfilledBy => db.(requests := Table(map r | r in db.requests.rows ::
        db.requests.rows[r].(status := MovedStatus(db.requests.rows[r].status, src, dst)), db.requests.next))
    case RequestUser => db.(requests := MovedRequests(db.requests, src, dst))
    case LogActor => db.(log := map c | c in db.log :: MovedLines(db.log[c], src, dst))
    case CardUser => db.(cards := Table(map c | c in db.cards.rows ::
        db.cards.rows[c].(owner := Moved(db.cards.rows[c].owner, src, dst)), db.cards.next))
    case CorrectionCreatedBy => db.(books := MovedBooks(db.books, FinanceCorrections, src, dst))
    case ReviewCreatedBy => db.(books := MovedBooks(db.books, ImportReviews, src, dst))
    case ExpenseCreatedBy => db.(books := MovedBooks(db.books, ShopExpenses, src, dst))
    case OrderCancelledBy => db.(orders := Table(map o | o in db.orders.rows ::
        (if db.orders.rows[o].status.Cancelled? then
           db.orders.rows[o].(status := Cancelled(MovedOpt(db.orders.rows[o].status.who, src, dst)))
         else db.orders.rows[o]), db.orders.next))
    case OrderDeliveredBy => db.(orders := Table(map o | o in db.orders.rows ::
        (if db.orders.rows[o].status.Delivered? then
           db.orders.rows[o].(status := Delivered(MovedOpt(db.orders.rows[o].status.who, src, dst)))
         else db.orders.rows[o]), db.orders.next))
    case OrderUser => db.(orders := Table(map o | o in db.orders.rows ::
        db.orders.rows[o].(user := Moved(db.orders.rows[o].user, src, dst)), db.orders.next))
  }

  /** reassignUserReferences: column by column; the partial unique index can refuse the request owner column. */
  function Reassign(db: Db, cols: seq<Column>, src: nat, dst: nat): Outcome<Db>
    decreases |cols|
  {
    if cols == [] then Ok(db)
    else
      var moved := MoveColumn(db, cols[0], src, dst);
      if !OneOpenPerKind(moved.requests.rows) then Err(MergeConflict)
      else Reassign(moved, cols[1..], src, dst)
  }

  /** DELETE FROM users: rows that still belong to the user cascade, actor columns become NULL. */
  function DeleteUserRow(db: Db, u: nat): Db {
    var d := DeleteCards(db, set c | c in db.cards.rows && db.cards.rows[c].owner == u);
    Db(d.users.(rows := d.users.rows - {u}),
       d.cards,
       d.requests.(rows := map r | r in d.requests.rows && d.requests.rows[r].user != u ::
         (if d.requests.rows[r].status.Fulfilled? && d.requests.rows[r].status.who == Some(u)
          then d.requests.rows[r].(status := d.requests.rows[r].status.(who := None)) else d.requests.rows[r])),
       d.orders.(rows := map o | o in d.orders.rows && d.orders.rows[o].user != u ::
         (if d.orders.rows[o].status == Delivered(Some(u)) then d.orders.rows[o].(status := Delivered(None))
          else if d.orders.rows[o].status == Cancelled(Some(u)) then d.orders.rows[o].(status := Cancelled(None))
          else d.orders.rows[o])),
       map k | k in d.meals :: Forgotten(d.meals[k], u),
       map c | c in d.log :: seq(|d.log[c]|,
           i requires 0 <= i < |d.log[c]| => d.log[c][i].(actor := Forgotten(d.log[c][i].actor, u))),
       map k | k in d.books :: Forgotten(d.books[k], u))
  }

  function Forgotten(who: Option<nat>, u: nat): Option<nat> { if who == Some(u) then None else who }

  function Merge(db: Db, src: nat, dst: nat, actor: nat): Outcome<Db> {
    if src == dst then Err(MergeTargetNotGoogle)
    else if src == actor || dst == actor then Err(CannotChangeSelf)
    else if src !in db.users.rows then Err(NotFound)
    else if db.users.rows[src].login.None? then Err(MergeSourceNotLocal)
    else if IsSystem(db.users.rows[src].login) then Err(SystemUser)
    else if dst !in db.users.rows then Err(NotFound)
    else if !db.users.rows[dst].google then Err(MergeTargetNotGoogle)
    else
      var moved := Reassign(db, COLUMNS, src, dst);
      if moved.Err? then Err(moved.error)
      else Ok(DeleteUserRow(KeepMatroos(moved.value, src, dst), src))
  }

  /** The matroos-jeugd flag of the local account carries over. */
  function KeepMatroos(db: Db, src: nat, dst: nat): Db {
    if src in db.users.rows && dst in db.users.rows && db.users.rows[src].matroos
    then db.(users := db.users.Put(dst, db.users.rows[dst].(matroos := true))) else db
  }

  function FindLogin(users: map<nat, User>, login: string, n: nat): (r: Option<nat>)
    ensures r.Some? ==> r.value in users && users[r.value].login == Some(login)
    ensures r.None? ==> forall u :: u in users && u < n ==> users[u].login != Some(login)
  {
    if n == 0 then None
    else
      var r := FindLogin(users, login, n - 1);
      if r.Some? then r
      else if n - 1 in users && users[n - 1].login == Some(login) then Some(n - 1) else None
  }

  /** The database with the account "Verwijderde leden" in it, and that account's id. */
  function WithPlaceholder(db: Db): (Db, nat) {
    var found := FindLogin(db.users.rows, DELETED_MEMBERS, db.users.next);
    if found.Some? then (db, found.value)
    else (db.(users := db.users.Insert(User(Some(DELETED_MEMBERS), false, false, true))), db.users.next)
  }

  function CancelOrdersOf(db: Db, user: nat, actor: nat): Db {
    db.(orders := Table(map o | o in db.orders.rows ::
      (if db.orders.rows[o].user == user && db.orders.rows[o].status.Pending?
       then db.orders.rows[o].(status := Cancelled(Some(actor))) else db.orders.rows[o]), db.orders.next))
  }

  function DeleteUser(db: Db, user: nat, actor: nat): Outcome<Db> {
    if user == actor then Err(CannotChangeSelf)
    else if user !in db.users.rows then Err(NotFound)
    else if IsSystem(db.users.rows[user].login) then Err(SystemUser)
    else if !db.users.rows[user].disabled then Err(UserNotDisabled)
    else
      var (closed, placeholder) := WithPlaceholder(CancelOrdersOf(Withdraw(db, OpenOf(db.requests.rows, user)), user,
          actor));
      var moved := Reassign(closed, COLUMNS, user, placeholder);
      if moved.Err? then Err(moved.error) else Ok(DeleteUserRow(moved.value, user))
  }

  /** Account maintenance outside this model: a new account, or a change to flags and identity of an existing one. */
  function SaveUser(db: Db, user: Option<nat>, row: User): Outcome<Db> {
    if user.None? then Ok(db.(users := db.users.Insert(row)))
    else if user.value !in db.users.rows then Err(NotFound)
    else Ok(db.(users := db.users.Put(user.value, row)))
  }
}
