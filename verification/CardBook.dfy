/** What is true of a single card, its journal, its orders and its meals, and what each operation on a card keeps. */
module CardBook {
  import opened Prelude
  import opened Journal
  import opened Ledger

  /** Everything the database holds about one card. `open`: an open request points at it; order ids lie below `n`. */
  datatype CardView = CardView(card: Card, lines: seq<Line>, days: set<int>, orders: map<nat, Order>, open: bool,
      n: nat) {
    predicate IsOnline() { card.source == Online }
  }

  // ----- The per-card invariant -----

  /** The ledger replays to the balance, over all lines and over the live lines only. */
  ghost predicate Balanced(knipjes: int, lines: seq<Line>) {
    && 0 <= knipjes <= FULL_CARD
    && Sum(lines, Delta) == knipjes
    && Sum(lines, LiveDelta) == knipjes
    && Replays(lines) && Reversals(lines) && IssuedFirst(lines)
  }

  ghost predicate FitsCard(kind: Kind, source: Source, l: Line) {
    && (l.order.Some? <==> l.reason == TostiDelivered)
    && (l.meal.Some? <==> l.reason == AvondetenMeal && l.Live())
    && match l.reason
       case TostiDelivered => kind == Tosti && l.delta <= 0
       case AvondetenMeal => kind == Avondeten && l.delta == -1
       case ManualKnipje => source == Online && l.delta == -1
       case EstimateAdjust => source == Physical
       case Undo => true
       case Issued => l.reversedBy.None?
       case Backfill => false
  }

  ghost predicate ReasonsFit(kind: Kind, source: Source, lines: seq<Line>) {
    forall i :: 0 <= i < |lines| ==> FitsCard(kind, source, lines[i])
  }

  predicate IsDelivery(l: Line, o: nat) { l.reason == TostiDelivered && l.order == Some(o) }

  ghost predicate HasDelivery(lines: seq<Line>, o: nat) {
    exists i :: 0 <= i < |lines| && IsDelivery(lines[i], o)
  }

  /** The knipjes of order `o` were given back. */
  ghost predicate Refunded(lines: seq<Line>, o: nat) {
    exists i :: 0 <= i < |lines| && IsDelivery(lines[i], o) && lines[i].reversedBy.Some?
  }

  ghost function NetDelivered(lines: seq<Line>): (nat, Order) -> int {
    (o: nat, row: Order) => if row.status.Delivered? && !Refunded(lines, o) then row.quantity else 0
  }

  function PendingQuantity(o: nat, row: Order): int {
    if row.status.Pending? then row.quantity else 0
  }

  ghost predicate DeliveryFits(online: bool, orders: map<nat, Order>, l: Line) {
    && l.order.Some? && l.order.value in orders
    && var row := orders[l.order.value];
       row.status.Delivered? && -row.quantity <= l.delta && (online ==> l.delta == -row.quantity)
  }

  /** Delivery lines and delivered orders of this card are in one-to-one correspondence. */
  ghost predicate DeliveriesFit(online: bool, lines: seq<Line>, orders: map<nat, Order>) {
    && (forall i :: 0 <= i < |lines| && lines[i].reason == TostiDelivered ==> DeliveryFits(online, orders, lines[i]))
    && (forall i, j ::
          (0 <= i < j < |lines| && lines[i].reason == TostiDelivered && lines[j].reason == TostiDelivered) ==>
          lines[i].order != lines[j].order)
    && (forall o :: o in orders && orders[o].status.Delivered? ==> HasDelivery(lines, o))
  }

  /** An online card's live delivery lines weigh what its delivered, unrefunded orders weigh. */
  ghost predicate NetFits(online: bool, lines: seq<Line>, orders: map<nat, Order>, n: nat) {
    online ==> Total(orders, NetDelivered(lines), n) == Sum(lines, DeliveredWeight)
  }

  predicate BooksMeal(l: Line, day: int) { l.meal == Some(day) }

  ghost predicate HasMeal(lines: seq<Line>, day: int) {
    exists i :: 0 <= i < |lines| && BooksMeal(lines[i], day)
  }

  /** Booked meals and live meal lines are in one-to-one correspondence. */
  ghost predicate MealsFit(lines: seq<Line>, days: set<int>) {
    && (forall i :: 0 <= i < |lines| && lines[i].meal.Some? ==> lines[i].meal.value in days)
    && (forall i, j :: 0 <= i < j < |lines| && lines[i].meal.Some? ==> lines[i].meal != lines[j].meal)
    && (forall d :: d in days ==> HasMeal(lines, d))
    && Sum(lines, MealWeight) == |days|
  }

  ghost predicate OrderFits(owner: nat, kind: Kind, source: Source, row: Order) {
    && row.user == owner && kind == Tosti
    && QUANTITY_MIN <= row.quantity <= QUANTITY_MAX
    && (row.status.Pending? ==> source == Online)
  }

  ghost predicate OrdersFit(owner: nat, kind: Kind, source: Source, orders: map<nat, Order>, n: nat) {
    forall o :: o in orders ==> o < n && OrderFits(owner, kind, source, orders[o])
  }

  /** A card whose payment has not been accorded has not been touched. */
  ghost predicate Untouched(v: CardView) {
    v.open ==>
      && v.IsOnline() && v.card.knipjes == FULL_CARD && |v.lines| == 1 && v.days == {}
      && forall o :: o in v.orders ==> !v.orders[o].status.Delivered?
  }

  /** Open orders never claim more than the balance plus the punches that were taken by hand. */
  ghost predicate Reserved(v: CardView) {
    v.IsOnline() ==> Total(v.orders, PendingQuantity, v.n) <= v.card.knipjes + LivePunches(v.lines)
  }

  ghost predicate CardOk(v: CardView) {
    && Balanced(v.card.knipjes, v.lines)
    && ReasonsFit(v.card.kind, v.card.source, v.lines)
    && DeliveriesFit(v.IsOnline(), v.lines, v.orders)
    && NetFits(v.IsOnline(), v.lines, v.orders, v.n)
    && MealsFit(v.lines, v.days)
    && OrdersFit(v.card.owner, v.card.kind, v.card.source, v.orders, v.n)
    && Untouched(v)
    && Reserved(v)
  }

  // ----- What follows for one card -----

  lemma CardOrderFits(v: CardView, o: nat)
    requires CardOk(v) && o in v.orders
    ensures o < v.n && OrderFits(v.card.owner, v.card.kind, v.card.source, v.orders[o])
  {}

  lemma OpenMeansUntouched(v: CardView)
    requires CardOk(v) && v.open
    ensures v.IsOnline() && v.card.knipjes == FULL_CARD && |v.lines| == 1 && v.days == {}
    ensures forall o :: o in v.orders ==> !v.orders[o].status.Delivered?
  {}

  lemma {:induction false} LiveSplit(kind: Kind, lines: seq<Line>)
    requires lines != [] && IssuedFirst(lines) && ReasonsFit(kind, Online, lines)
    ensures Sum(lines, LiveDelta)
      == lines[0].delta - Sum(lines, DeliveredWeight) - LivePunches(lines) - Sum(lines, MealWeight)
  {
    var last := |lines| - 1;
    var rest := lines[..last];
    if last == 0 {
      assert Sum(rest, LiveDelta) == Sum(rest, DeliveredWeight) == Sum(rest, PunchWeight) == Sum(rest, MealWeight) == 0;
      assert FitsCard(kind, Online, lines[0]);
    } else {
      LiveSplit(kind, rest);
    }
  }

  /** What an online card was issued with is what is left, plus what went out and was not undone. */
  lemma OnlineConservation(v: CardView)
    requires CardOk(v) && v.IsOnline()
    ensures v.card.knipjes + Total(v.orders, NetDelivered(v.lines), v.n) + LivePunches(v.lines) + |v.days|
      == v.lines[0].delta
  {
    LiveSplit(v.card.kind, v.lines);
  }

  lemma WeightsNonNegative(kind: Kind, source: Source, lines: seq<Line>)
    requires ReasonsFit(kind, source, lines)
    ensures Sum(lines, DeliveredWeight) >= 0 && LivePunches(lines) >= 0 && Sum(lines, MealWeight) >= 0
    ensures forall i :: 0 <= i < |lines| ==> DeliveredWeight(lines[i]) <= Sum(lines, DeliveredWeight)
    ensures forall i :: 0 <= i < |lines| ==> PunchWeight(lines[i]) <= LivePunches(lines)
    ensures forall i :: 0 <= i < |lines| ==> MealWeight(lines[i]) <= Sum(lines, MealWeight)
  {
    SumNonNegative(lines, DeliveredWeight);
    SumNonNegative(lines, PunchWeight);
    SumNonNegative(lines, MealWeight);
  }

  /** Undoing a live line of an online card always fits the card. */
  lemma UndoFitsOnline(v: CardView, i: nat)
    requires CardOk(v) && v.IsOnline() && i < |v.lines|
    requires Undoable(v.lines[i].reason) && v.lines[i].reversedBy.None?
    ensures 0 <= v.card.knipjes - v.lines[i].delta <= v.lines[0].delta <= FULL_CARD
  {
    LiveSplit(v.card.kind, v.lines);
    WeightsNonNegative(v.card.kind, v.card.source, v.lines);
    assert FitsCard(v.card.kind, v.card.source, v.lines[i]);
  }

  ghost predicate OnlyDelivery(lines: seq<Line>, i: nat, o: nat)
    requires i < |lines|
  {
    IsDelivery(lines[i], o) && forall j :: 0 <= j < |lines| && IsDelivery(lines[j], o) ==> j == i
  }

  /** A delivered order on a card has exactly one delivery line. */
  lemma OneDeliveryLine(v: CardView, o: nat)
    requires CardOk(v) && o in v.orders && v.orders[o].status.Delivered?
    ensures exists i :: 0 <= i < |v.lines| && OnlyDelivery(v.lines, i, o)
  {
    assert HasDelivery(v.lines, o);
    var i :| 0 <= i < |v.lines| && IsDelivery(v.lines[i], o);
    assert OnlyDelivery(v.lines, i, o);
  }

  /** Without live manual punches every open order of an active online card can be paid from it. */
  lemma PendingCovered(v: CardView, o: nat)
    requires CardOk(v) && v.IsOnline() && LivePunches(v.lines) == 0
    requires o in v.orders && v.orders[o].status.Pending?
    ensures v.orders[o].quantity <= v.card.knipjes
  {
    TotalNonNegative(v.orders, PendingQuantity, v.n);
    assert Share(v.orders, PendingQuantity, o) == v.orders[o].quantity;
  }
}
