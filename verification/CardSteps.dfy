/** Each change an operation makes to one card keeps the per-card invariant. */
module CardSteps {
  import opened Prelude
  import opened Journal
  import opened Ledger
  import opened CardBook

  // ----- A new line at the end of the journal -----

  function Booked(v: CardView, l: Line): CardView {
    v.(card := v.card.(knipjes := l.balanceAfter), lines := v.lines + [l])
  }

  /** A line that books `delta` on a balance now. */
  ghost predicate Books(knipjes: int, l: Line) {
    && l.balanceAfter == knipjes + l.delta && 0 <= l.balanceAfter <= FULL_CARD
    && l.reason != Issued && l.reason != Undo && l.reverses.None? && l.reversedBy.None?
  }

  lemma BookedBalanced(knipjes: int, lines: seq<Line>, l: Line)
    requires Balanced(knipjes, lines) && Books(knipjes, l)
    ensures Balanced(l.balanceAfter, lines + [l])
  {
    SumAppend(lines, l, Delta);
    SumAppend(lines, l, LiveDelta);
    ReplaysAppend(lines, l);
    BookedReversals(lines, l);
  }

  lemma BookedReversals(lines: seq<Line>, l: Line)
    requires Reversals(lines) && l.reason != Undo && l.reverses.None? && l.reversedBy.None?
    ensures Reversals(lines + [l])
  {
    var more := lines + [l];
    forall i | 0 <= i < |more| && more[i].reverses.Some? ensures IsUndoOf(more, i, more[i].reverses.value) {
      assert more[i] == lines[i];
      assert IsUndoOf(lines, i, more[i].reverses.value);
    }
  }

  lemma RefundedAppend(lines: seq<Line>, l: Line, o: nat)
    requires l.reversedBy.None?
    ensures Refunded(lines + [l], o) == Refunded(lines, o)
  {
    var more := lines + [l];
    if Refunded(lines, o) {
      var i :| 0 <= i < |lines| && IsDelivery(lines[i], o) && lines[i].reversedBy.Some?;
      assert more[i] == lines[i];
    }
    if Refunded(more, o) {
      var i :| 0 <= i < |more| && IsDelivery(more[i], o) && more[i].reversedBy.Some?;
      assert i < |lines| && more[i] == lines[i];
    }
  }

  lemma HasDeliveryAppend(lines: seq<Line>, l: Line, o: nat)
    requires HasDelivery(lines, o)
    ensures HasDelivery(lines + [l], o)
  {
    var i :| 0 <= i < |lines| && IsDelivery(lines[i], o);
    assert (lines + [l])[i] == lines[i];
  }

  /** A line that delivers nothing leaves the correspondence with orders alone. */
  lemma BookedDeliveries(online: bool, lines: seq<Line>, orders: map<nat, Order>, n: nat, l: Line)
    requires DeliveriesFit(online, lines, orders) && NetFits(online, lines, orders, n)
    requires l.reversedBy.None? && l.reason != TostiDelivered
    ensures DeliveriesFit(online, lines + [l], orders) && NetFits(online, lines + [l], orders, n)
  {
    forall o: nat ensures Refunded(lines + [l], o) == Refunded(lines, o) { RefundedAppend(lines, l, o); }
    TotalCongruent(orders, NetDelivered(lines), orders, NetDelivered(lines + [l]), n);
    SumAppend(lines, l, DeliveredWeight);
    forall o | o in orders && orders[o].status.Delivered? ensures HasDelivery(lines + [l], o) {
      HasDeliveryAppend(lines, l, o);
    }
  }

  lemma HasMealAppend(lines: seq<Line>, l: Line, d: int)
    requires HasMeal(lines, d) || BooksMeal(l, d)
    ensures HasMeal(lines + [l], d)
  {
    var more := lines + [l];
    if HasMeal(lines, d) {
      var i :| 0 <= i < |lines| && BooksMeal(lines[i], d);
      assert BooksMeal(more[i], d);
    } else {
      assert BooksMeal(more[|lines|], d);
    }
  }

  lemma BookedMeals(lines: seq<Line>, days: set<int>, l: Line)
    requires MealsFit(lines, days) && l.meal.None? && MealWeight(l) == 0
    ensures MealsFit(lines + [l], days)
  {
    SumAppend(lines, l, MealWeight);
    forall d | d in days ensures HasMeal(lines + [l], d) { HasMealAppend(lines, l, d); }
  }

  /** A plain booking that touches neither orders nor meals. */
  lemma PlainBookingKeeps(v: CardView, l: Line)
    requires CardOk(v) && Books(v.card.knipjes, l) && FitsCard(v.card.kind, v.card.source, l) && !v.open
    requires l.reason != TostiDelivered && l.meal.None? && MealWeight(l) == 0
    requires v.IsOnline() ==> l.delta + PunchWeight(l) >= 0
    ensures CardOk(Booked(v, l))
  {
    BookedBalanced(v.card.knipjes, v.lines, l);
    BookedDeliveries(v.IsOnline(), v.lines, v.orders, v.n, l);
    BookedMeals(v.lines, v.days, l);
    SumAppend(v.lines, l, PunchWeight);
  }

  // ----- Issue, fulfil, growth of the order table -----

  function NewCard(card: Card, actor: Option<nat>, open: bool, n: nat): CardView {
    CardView(card, [Plain(card.knipjes, card.knipjes, Issued, actor)], {}, map[], open, n)
  }

  lemma SumSingle(l: Line, w: Line -> int)
    ensures Sum([l], w) == w(l)
  {
    SumAppend([], l, w);
    assert [] + [l] == [l];
  }

  lemma IssueKeeps(card: Card, actor: Option<nat>, open: bool, n: nat)
    requires 0 <= card.knipjes <= FULL_CARD
    requires open ==> card.source == Online && card.knipjes == FULL_CARD
    ensures CardOk(NewCard(card, actor, open, n))
  {
    var v := NewCard(card, actor, open, n);
    var l := v.lines[0];
    SumSingle(l, Delta);
    SumSingle(l, LiveDelta);
    SumSingle(l, PunchWeight);
    SumSingle(l, MealWeight);
    SumSingle(l, DeliveredWeight);
    assert v.lines[..1] == v.lines;
    TotalZero(v.orders, NetDelivered(v.lines), n);
    TotalZero(v.orders, PendingQuantity, n);
  }

  lemma FulfilKeeps(v: CardView)
    requires CardOk(v)
    ensures CardOk(v.(open := false))
  {}

  lemma GrowKeeps(v: CardView, m: nat)
    requires CardOk(v) && v.n <= m
    ensures CardOk(v.(n := m))
  {
    TotalGrow(v.orders, NetDelivered(v.lines), v.n, m);
    TotalGrow(v.orders, PendingQuantity, v.n, m);
  }

  // ----- Orders -----

  lemma UndeliveredPut(online: bool, lines: seq<Line>, orders: map<nat, Order>, o: nat, row: Order)
    requires DeliveriesFit(online, lines, orders) && !row.status.Delivered?
    requires o in orders ==> !orders[o].status.Delivered?
    ensures DeliveriesFit(online, lines, orders[o := row])
  {
    forall i | 0 <= i < |lines| && lines[i].reason
      == TostiDelivered ensures DeliveryFits(online, orders[o := row], lines[i]) {
      assert DeliveryFits(online, orders, lines[i]);
    }
  }

  lemma OrderTotals(lines: seq<Line>, orders: map<nat, Order>, n: nat, row: Order)
    requires forall o :: o in orders ==> o < n
    requires row.status.Pending?
    ensures Total(orders[n := row], PendingQuantity, n + 1) == Total(orders, PendingQuantity, n) + row.quantity
    ensures Total(orders[n := row], NetDelivered(lines), n + 1) == Total(orders, NetDelivered(lines), n)
  {
    TotalCongruent(orders, PendingQuantity, orders[n := row], PendingQuantity, n);
    TotalCongruent(orders, NetDelivered(lines), orders[n := row], NetDelivered(lines), n);
  }

  /** Admission: the open orders plus the new one fit in the balance. */
  lemma OrderKeeps(v: CardView, row: Order)
    requires CardOk(v) && v.IsOnline() && OrderFits(v.card.owner, v.card.kind, v.card.source, row)
      && row.status.Pending?
    requires Total(v.orders, PendingQuantity, v.n) + row.quantity <= v.card.knipjes
    ensures CardOk(v.(orders := v.orders[v.n := row], n := v.n + 1))
  {
    hide Balanced, ReasonsFit, DeliveriesFit, MealsFit;
    OrderTotals(v.lines, v.orders, v.n, row);
    WeightsNonNegative(v.card.kind, v.card.source, v.lines);
    UndeliveredPut(v.IsOnline(), v.lines, v.orders, v.n, row);
  }

  lemma CancelTotals(lines: seq<Line>, orders: map<nat, Order>, n: nat, o: nat, row: Order)
    requires o < n && o in orders && orders[o].status.Pending? && row.status.Cancelled?
    ensures Total(orders[o := row], PendingQuantity, n) == Total(orders, PendingQuantity, n) - orders[o].quantity
    ensures Total(orders[o := row], NetDelivered(lines), n) == Total(orders, NetDelivered(lines), n)
  {
    TotalChange(orders, PendingQuantity, orders[o := row], PendingQuantity, n, o);
    TotalCongruent(orders, NetDelivered(lines), orders[o := row], NetDelivered(lines), n);
  }

  lemma CancelOrderKeeps(v: CardView, o: nat, who: Option<nat>)
    requires CardOk(v) && o in v.orders && v.orders[o].status.Pending?
    ensures CardOk(v.(orders := v.orders[o := v.orders[o].(status := Cancelled(who))]))
  {
    hide Balanced, ReasonsFit, DeliveriesFit, MealsFit;
    var row := v.orders[o].(status := Cancelled(who));
    CancelTotals(v.lines, v.orders, v.n, o, row);
    UndeliveredPut(v.IsOnline(), v.lines, v.orders, o, row);
  }

  // ----- Punches, estimates, meals -----

  lemma PunchKeeps(v: CardView, actor: nat)
    requires CardOk(v) && v.IsOnline() && !v.open && v.card.knipjes > 0
    ensures CardOk(Booked(v, PunchLine(v.card, actor)))
  {
    PlainBookingKeeps(v, PunchLine(v.card, actor));
  }

  lemma EstimateKeeps(v: CardView, value: int, actor: nat)
    requires CardOk(v) && v.card.source == Physical && 0 <= value <= FULL_CARD
    ensures CardOk(Booked(v, EstimateLine(v.card, value, actor)))
  {
    PlainBookingKeeps(v, EstimateLine(v.card, value, actor));
  }

  lemma MealBooked(lines: seq<Line>, days: set<int>, l: Line, day: int)
    requires MealsFit(lines, days) && day !in days && l.meal == Some(day) && MealWeight(l) == 1
    ensures MealsFit(lines + [l], days + {day})
  {
    SumAppend(lines, l, MealWeight);
    forall d | d in days + {day} ensures HasMeal(lines + [l], d) { HasMealAppend(lines, l, d); }
  }

  lemma NoOrders(owner: nat, kind: Kind, source: Source, orders: map<nat, Order>, n: nat)
    requires OrdersFit(owner, kind, source, orders, n) && kind != Tosti
    ensures forall o :: o !in orders
  {}

  lemma MealKeeps(v: CardView, day: int, who: nat)
    requires CardOk(v) && v.card.kind == Avondeten && v.card.knipjes > 0 && !v.open && day !in v.days
    ensures CardOk(Booked(v, MealLine(v.card, day, who)).(days := v.days + {day}))
  {
    hide DeliveriesFit, NetFits;
    var l := MealLine(v.card, day, who);
    BookedBalanced(v.card.knipjes, v.lines, l);
    BookedDeliveries(v.IsOnline(), v.lines, v.orders, v.n, l);
    MealBooked(v.lines, v.days, l, day);
    SumAppend(v.lines, l, PunchWeight);
    WeightsNonNegative(v.card.kind, v.card.source, v.lines);
    NoOrders(v.card.owner, v.card.kind, v.card.source, v.orders, v.n);
    TotalZero(v.orders, PendingQuantity, v.n);
  }

  // ----- Delivery -----

  /** `row` is settled on this card: one of its own open orders, or a physical order that had no card yet. */
  ghost predicate Deliverable(v: CardView, o: nat, row: Order) {
    && o < v.n && row.status.Pending?
    && row.user == v.card.owner && v.card.kind == Tosti && QUANTITY_MIN <= row.quantity <= QUANTITY_MAX
    && (v.IsOnline() ==> o in v.orders && v.orders[o] == row && !v.open && row.quantity <= v.card.knipjes)
    && (!v.IsOnline() ==> o !in v.orders)
    && !v.open
  }

  /** The delivered order row: linked to card `c`, which for a physical order happens only now. */
  function DeliveredRow(row: Order, c: nat, who: nat): Order {
    row.(status := Delivered(Some(who)), card := Some(c))
  }

  function AfterDelivery(v: CardView, c: nat, o: nat, row: Order, who: nat): CardView {
    Booked(v, DeliveryLine(v.card, o, row.quantity, who)).(orders := v.orders[o := DeliveredRow(row, c, who)])
  }

  lemma NoLineYet(online: bool, lines: seq<Line>, orders: map<nat, Order>, o: nat)
    requires DeliveriesFit(online, lines, orders) && (o in orders ==> !orders[o].status.Delivered?)
    ensures forall i :: 0 <= i < |lines| ==> !IsDelivery(lines[i], o)
  {
    forall i | 0 <= i < |lines| && lines[i].reason == TostiDelivered ensures lines[i].order != Some(o) {
      assert DeliveryFits(online, orders, lines[i]);
    }
  }

  lemma DeliverFits(online: bool, lines: seq<Line>, orders: map<nat, Order>, l: Line, o: nat, done: Order)
    requires DeliveriesFit(online, lines, orders) && (o in orders ==> !orders[o].status.Delivered?)
    requires IsDelivery(l, o) && DeliveryFits(online, orders[o := done], l)
    ensures DeliveriesFit(online, lines + [l], orders[o := done])
  {
    var more := lines + [l];
    var after := orders[o := done];
    NoLineYet(online, lines, orders, o);
    assert more[|lines|] == l;
    forall p | p in after && after[p].status.Delivered? ensures HasDelivery(more, p) {
      if p != o { HasDeliveryAppend(lines, l, p); }
    }
    forall i | 0 <= i < |more| && more[i].reason == TostiDelivered ensures DeliveryFits(online, after, more[i]) {
      if i < |lines| { assert DeliveryFits(online, orders, lines[i]); }
    }
    forall i, j | 0 <= i < j < |more| && more[i].reason == TostiDelivered && more[j].reason == TostiDelivered
      ensures more[i].order != more[j].order
    {
      if j == |lines| { assert !IsDelivery(lines[i], o); }
    }
  }

  lemma DeliverNet(lines: seq<Line>, orders: map<nat, Order>, n: nat, l: Line, o: nat, done: Order)
    requires DeliveriesFit(true, lines, orders) && NetFits(true, lines, orders, n)
    requires o < n && o in orders && !orders[o].status.Delivered?
    requires IsDelivery(l, o) && l.reversedBy.None? && done.status.Delivered? && l.delta == -done.quantity
    ensures NetFits(true, lines + [l], orders[o := done], n)
  {
    forall p: nat ensures Refunded(lines + [l], p) == Refunded(lines, p) { RefundedAppend(lines, l, p); }
    NoLineYet(true, lines, orders, o);
    TotalChange(orders, NetDelivered(lines), orders[o := done], NetDelivered(lines + [l]), n, o);
    SumAppend(lines, l, DeliveredWeight);
  }

  lemma DeliverKeeps(v: CardView, c: nat, o: nat, row: Order, who: nat)
    requires CardOk(v) && Deliverable(v, o, row)
    ensures CardOk(AfterDelivery(v, c, o, row, who))
  {
    var l := DeliveryLine(v.card, o, row.quantity, who);
    var done := DeliveredRow(row, c, who);
    BookedBalanced(v.card.knipjes, v.lines, l);
    BookedMeals(v.lines, v.days, l);
    DeliverFits(v.IsOnline(), v.lines, v.orders, l, o, done);
    if v.IsOnline() {
      DeliverNet(v.lines, v.orders, v.n, l, o, done);
      SumAppend(v.lines, l, PunchWeight);
      TotalChange(v.orders, PendingQuantity, v.orders[o := done], PendingQuantity, v.n, o);
    }
  }

  // ----- Undo -----

  function AfterUndo(v: CardView, i: nat, actor: nat): CardView
    requires i < |v.lines|
  {
    var b := v.card.knipjes - v.lines[i].delta;
    v.(card := v.card.(knipjes := b), lines := WithUndo(v.lines, i, b, actor),
       days := if v.lines[i].meal.Some? then v.days - {v.lines[i].meal.value} else v.days)
  }

  ghost predicate CanUndo(knipjes: int, lines: seq<Line>, i: nat) {
    && i < |lines| && Undoable(lines[i].reason) && lines[i].reversedBy.None? && lines[i].delta != 0
    && 0 <= knipjes - lines[i].delta <= FULL_CARD
  }

  lemma UndoBalanced(knipjes: int, lines: seq<Line>, i: nat, actor: nat)
    requires Balanced(knipjes, lines) && CanUndo(knipjes, lines, i)
    ensures Balanced(knipjes - lines[i].delta, WithUndo(lines, i, knipjes - lines[i].delta, actor))
  {
    var b := knipjes - lines[i].delta;
    UndoSums(lines, i, b, actor);
    UndoReplays(lines, i, b, actor);
    UndoReversals(lines, i, b, actor);
    UndoIssued(lines, i, b, actor);
  }

  lemma UndoSums(lines: seq<Line>, i: nat, b: int, actor: nat)
    requires i < |lines| && lines[i].reversedBy.None? && Undoable(lines[i].reason)
    ensures Sum(WithUndo(lines, i, b, actor), Delta) == Sum(lines, Delta) - lines[i].delta
    ensures Sum(WithUndo(lines, i, b, actor), LiveDelta) == Sum(lines, LiveDelta) - lines[i].delta
  {
    SumWithUndo(lines, i, b, actor, Delta);
    SumWithUndo(lines, i, b, actor, LiveDelta);
  }

  lemma UndoReplays(lines: seq<Line>, i: nat, b: int, actor: nat)
    requires Replays(lines) && i < |lines| && b == Sum(lines, Delta) - lines[i].delta && 0 <= b <= FULL_CARD
    ensures Replays(WithUndo(lines, i, b, actor))
  {
    var marked := lines[i := Undone(lines, i)];
    ReplaysMarked(lines, marked);
    ReplaysAppend(marked, UndoLine(lines, i, b, actor));
  }

  lemma UndoIssued(lines: seq<Line>, i: nat, b: int, actor: nat)
    requires IssuedFirst(lines) && i < |lines|
    ensures IssuedFirst(WithUndo(lines, i, b, actor))
  {
    var more := WithUndo(lines, i, b, actor);
    assert forall k :: 0 <= k < |lines| ==> more[k].reason == lines[k].reason && more[k].delta == lines[k].delta;
  }

  lemma UndoReversals(lines: seq<Line>, i: nat, b: int, actor: nat)
    requires Reversals(lines) && i < |lines| && Undoable(lines[i].reason) && lines[i].reversedBy.None?
      && lines[i].delta != 0
    ensures Reversals(WithUndo(lines, i, b, actor))
  {
    var more := WithUndo(lines, i, b, actor);
    var n := |lines|;
    forall k | 0 <= k < |more| && more[k].reverses.Some? ensures IsUndoOf(more, k, more[k].reverses.value) {
      if k < n {
        assert more[k].reverses == lines[k].reverses;
        assert IsUndoOf(lines, k, lines[k].reverses.value);
      }
    }
    forall j | 0 <= j < |more| && more[j].reversedBy.Some?
      ensures j < more[j].reversedBy.value < |more| && more[more[j].reversedBy.value].reverses == Some(j)
    {
      if j < n && j != i { assert lines[j] == more[j]; }
    }
  }

  lemma UndoReasons(kind: Kind, source: Source, lines: seq<Line>, i: nat, b: int, actor: nat)
    requires ReasonsFit(kind, source, lines) && i < |lines| && Undoable(lines[i].reason)
    ensures ReasonsFit(kind, source, WithUndo(lines, i, b, actor))
  {
    var more := WithUndo(lines, i, b, actor);
    forall k | 0 <= k < |more| ensures FitsCard(kind, source, more[k]) {
      if k < |lines| { assert FitsCard(kind, source, lines[k]); }
    }
  }

  /** An undo keeps every line's reason, delta and order. */
  lemma UndoShape(lines: seq<Line>, i: nat, b: int, actor: nat)
    requires i < |lines|
    ensures var more := WithUndo(lines, i, b, actor);
      && |more| == |lines| + 1 && more[|lines|] == UndoLine(lines, i, b, actor) && more[i] == Undone(lines, i)
      && forall k :: 0 <= k < |lines| ==>
        more[k].reason == lines[k].reason && more[k].delta == lines[k].delta && more[k].order == lines[k].order
    ensures forall k :: 0 <= k < |lines| && k != i ==> WithUndo(lines, i, b, actor)[k] == lines[k]
  {}

  lemma UndoDeliveries(online: bool, lines: seq<Line>, orders: map<nat, Order>, i: nat, b: int, actor: nat)
    requires DeliveriesFit(online, lines, orders) && i < |lines|
    ensures DeliveriesFit(online, WithUndo(lines, i, b, actor), orders)
  {
    var more := WithUndo(lines, i, b, actor);
    UndoShape(lines, i, b, actor);
    forall k | 0 <= k < |more| && more[k].reason == TostiDelivered ensures DeliveryFits(online, orders, more[k]) {
      assert DeliveryFits(online, orders, lines[k]);
    }
    forall o | o in orders && orders[o].status.Delivered? ensures HasDelivery(more, o) {
      assert HasDelivery(lines, o);
      var k :| 0 <= k < |lines| && IsDelivery(lines[k], o);
      assert IsDelivery(more[k], o);
    }
    forall k, j | 0 <= k < j < |more| && more[k].reason == TostiDelivered && more[j].reason == TostiDelivered
      ensures more[k].order != more[j].order
    {
      assert lines[k].order != lines[j].order;
    }
  }

  lemma UndoneRefunds(lines: seq<Line>, i: nat, b: int, actor: nat, o: nat)
    requires i < |lines| && !IsDelivery(lines[i], o)
    ensures Refunded(WithUndo(lines, i, b, actor), o) == Refunded(lines, o)
  {
    var more := WithUndo(lines, i, b, actor);
    UndoShape(lines, i, b, actor);
    if Refunded(lines, o) {
      var k :| 0 <= k < |lines| && IsDelivery(lines[k], o) && lines[k].reversedBy.Some?;
      assert more[k] == lines[k];
    }
    if Refunded(more, o) {
      var k :| 0 <= k < |more| && IsDelivery(more[k], o) && more[k].reversedBy.Some?;
      assert k < |lines| && k != i && more[k] == lines[k];
    }
  }

  lemma UndoRefunds(online: bool, lines: seq<Line>, orders: map<nat, Order>, i: nat, b: int, actor: nat, o: nat)
    requires DeliveriesFit(online, lines, orders) && i < |lines| && IsDelivery(lines[i], o) && lines[i].reversedBy.None?
    ensures !Refunded(lines, o) && Refunded(WithUndo(lines, i, b, actor), o)
  {
    var more := WithUndo(lines, i, b, actor);
    UndoShape(lines, i, b, actor);
    assert IsDelivery(more[i], o);
  }

  lemma UndoNet(lines: seq<Line>, orders: map<nat, Order>, n: nat, i: nat, b: int, actor: nat)
    requires DeliveriesFit(true, lines, orders) && NetFits(true, lines, orders, n)
    requires i < |lines| && Undoable(lines[i].reason) && lines[i].reversedBy.None?
    requires forall o :: o in orders ==> o < n
    ensures NetFits(true, WithUndo(lines, i, b, actor), orders, n)
  {
    var more := WithUndo(lines, i, b, actor);
    forall o: nat | !IsDelivery(lines[i], o) ensures Refunded(more, o) == Refunded(lines, o) {
      UndoneRefunds(lines, i, b, actor, o);
    }
    SumWithUndo(lines, i, b, actor, DeliveredWeight);
    if lines[i].reason == TostiDelivered {
      assert DeliveryFits(true, orders, lines[i]);
      var o := lines[i].order.value;
      UndoRefunds(true, lines, orders, i, b, actor, o);
      TotalChange(orders, NetDelivered(lines), orders, NetDelivered(more), n, o);
    } else {
      TotalCongruent(orders, NetDelivered(lines), orders, NetDelivered(more), n);
    }
  }

  lemma UndoMeals(lines: seq<Line>, days: set<int>, i: nat, b: int, actor: nat)
    requires MealsFit(lines, days) && i < |lines|
    requires lines[i].meal.Some? <==> lines[i].reason == AvondetenMeal && lines[i].Live()
    ensures MealsFit(WithUndo(lines, i, b, actor), if lines[i].meal.Some? then days - {lines[i].meal.value} else days)
  {
    var more := WithUndo(lines, i, b, actor);
    var left := if lines[i].meal.Some? then days - {lines[i].meal.value} else days;
    UndoShape(lines, i, b, actor);
    SumWithUndo(lines, i, b, actor, MealWeight);
    forall d | d in left ensures HasMeal(more, d) {
      assert HasMeal(lines, d);
      var k :| 0 <= k < |lines| && BooksMeal(lines[k], d);
      assert k != i && BooksMeal(more[k], d);
    }
  }

  lemma UndoReserved(v: CardView, i: nat, actor: nat)
    requires Reserved(v) && i < |v.lines| && FitsCard(v.card.kind, v.card.source, v.lines[i])
    requires Undoable(v.lines[i].reason) && v.lines[i].reversedBy.None?
    ensures Reserved(AfterUndo(v, i, actor))
  {
    SumWithUndo(v.lines, i, v.card.knipjes - v.lines[i].delta, actor, PunchWeight);
  }

  /** An unverified card has nothing to undo. */
  lemma UndoNotOpen(v: CardView, i: nat)
    requires Untouched(v) && IssuedFirst(v.lines) && i < |v.lines| && Undoable(v.lines[i].reason)
    ensures !v.open
  {}

  lemma UndoMatches(v: CardView, i: nat, actor: nat)
    requires DeliveriesFit(v.IsOnline(), v.lines, v.orders) && NetFits(v.IsOnline(), v.lines, v.orders, v.n)
    requires OrdersFit(v.card.owner, v.card.kind, v.card.source, v.orders, v.n)
    requires i < |v.lines| && Undoable(v.lines[i].reason) && v.lines[i].reversedBy.None?
    ensures var w := AfterUndo(v, i, actor);
      DeliveriesFit(v.IsOnline(), w.lines, v.orders) && NetFits(v.IsOnline(), w.lines, v.orders, v.n)
  {
    var b := v.card.knipjes - v.lines[i].delta;
    UndoDeliveries(v.IsOnline(), v.lines, v.orders, i, b, actor);
    if v.IsOnline() { UndoNet(v.lines, v.orders, v.n, i, b, actor); }
  }

  lemma UndoFits(v: CardView, i: nat, actor: nat)
    requires ReasonsFit(v.card.kind, v.card.source, v.lines) && i < |v.lines| && Undoable(v.lines[i].reason)
    ensures ReasonsFit(v.card.kind, v.card.source, AfterUndo(v, i, actor).lines)
  {
    UndoReasons(v.card.kind, v.card.source, v.lines, i, v.card.knipjes - v.lines[i].delta, actor);
  }

  lemma UndoUnbooks(v: CardView, i: nat, actor: nat)
    requires MealsFit(v.lines, v.days) && i < |v.lines| && FitsCard(v.card.kind, v.card.source, v.lines[i])
    ensures MealsFit(AfterUndo(v, i, actor).lines, AfterUndo(v, i, actor).days)
  {
    UndoMeals(v.lines, v.days, i, v.card.knipjes - v.lines[i].delta, actor);
  }

  lemma UndoRest(v: CardView, i: nat, actor: nat)
    requires CardOk(v) && CanUndo(v.card.knipjes, v.lines, i)
    ensures var w := AfterUndo(v, i, actor);
      && DeliveriesFit(v.IsOnline(), w.lines, v.orders) && NetFits(v.IsOnline(), w.lines, v.orders, v.n)
      && MealsFit(w.lines, w.days) && Reserved(w) && !v.open
  {
    UndoUnbooks(v, i, actor);
    UndoReserved(v, i, actor);
    UndoMatches(v, i, actor);
    UndoNotOpen(v, i);
  }

  lemma UndoKeeps(v: CardView, i: nat, actor: nat)
    requires CardOk(v) && CanUndo(v.card.knipjes, v.lines, i)
    ensures CardOk(AfterUndo(v, i, actor))
  {
    hide Balanced, ReasonsFit, DeliveriesFit, NetFits, MealsFit, OrdersFit;
    UndoRest(v, i, actor);
    UndoBalanced(v.card.knipjes, v.lines, i, actor);
    UndoFits(v, i, actor);
  }

  // ----- Accounts -----

  function MovedOrderStatus(s: OrderStatus, src: nat, dst: nat): OrderStatus {
    match s
    case Pending => Pending
    case Delivered(who) => Delivered(MovedOpt(who, src, dst))
    case Cancelled(who) => Cancelled(MovedOpt(who, src, dst))
  }

  function MovedOrder(row: Order, src: nat, dst: nat): Order {
    row.(user := Moved(row.user, src, dst), status := MovedOrderStatus(row.status, src, dst))
  }

  function MovedOrders(orders: map<nat, Order>, src: nat, dst: nat): map<nat, Order> {
    map o | o in orders :: MovedOrder(orders[o], src, dst)
  }

  function MovedView(v: CardView, src: nat, dst: nat): CardView {
    v.(card := v.card.(owner := Moved(v.card.owner, src, dst)),
       lines := MovedLines(v.lines, src, dst),
       orders := MovedOrders(v.orders, src, dst))
  }

  lemma MoveRefunded(lines: seq<Line>, src: nat, dst: nat, o: nat)
    ensures Refunded(MovedLines(lines, src, dst), o) == Refunded(lines, o)
    ensures HasDelivery(lines, o) ==> HasDelivery(MovedLines(lines, src, dst), o)
  {
    var moved := MovedLines(lines, src, dst);
    assert forall i :: 0 <= i < |lines| ==> moved[i] == MovedLine(lines[i], src, dst);
    assert forall i :: 0 <= i < |lines| ==> IsDelivery(moved[i], o) == IsDelivery(lines[i], o);
  }

  lemma MoveDeliveries(online: bool, lines: seq<Line>, orders: map<nat, Order>, n: nat, src: nat, dst: nat)
    requires DeliveriesFit(online, lines, orders) && NetFits(online, lines, orders, n)
    ensures DeliveriesFit(online, MovedLines(lines, src, dst), MovedOrders(orders, src, dst))
    ensures NetFits(online, MovedLines(lines, src, dst), MovedOrders(orders, src, dst), n)
  {
    var moved := MovedLines(lines, src, dst);
    var rows := MovedOrders(orders, src, dst);
    assert forall i :: 0 <= i < |lines| ==> moved[i] == MovedLine(lines[i], src, dst);
    forall o: nat ensures Refunded(moved, o)
      == Refunded(lines, o) && (HasDelivery(lines, o) ==> HasDelivery(moved, o)) {
      MoveRefunded(lines, src, dst, o);
    }
    TotalCongruent(orders, NetDelivered(lines), rows, NetDelivered(moved), n);
    SumCongruent(lines, moved, DeliveredWeight);
    forall i | 0 <= i < |moved| && moved[i].reason == TostiDelivered ensures DeliveryFits(online, rows, moved[i]) {
      assert DeliveryFits(online, orders, lines[i]);
    }
    forall i, j | 0 <= i < j < |moved| && moved[i].reason == TostiDelivered && moved[j].reason == TostiDelivered
      ensures moved[i].order != moved[j].order
    {
      assert lines[i].order != lines[j].order;
    }
  }

  lemma MoveMeals(lines: seq<Line>, days: set<int>, src: nat, dst: nat)
    requires MealsFit(lines, days)
    ensures MealsFit(MovedLines(lines, src, dst), days)
  {
    var moved := MovedLines(lines, src, dst);
    assert forall i :: 0 <= i < |lines| ==> moved[i] == MovedLine(lines[i], src, dst);
    SumCongruent(lines, moved, MealWeight);
    forall d | d in days ensures HasMeal(moved, d) {
      assert HasMeal(lines, d);
      var i :| 0 <= i < |lines| && BooksMeal(lines[i], d);
      assert BooksMeal(moved[i], d);
    }
  }

  lemma MoveBalanced(knipjes: int, lines: seq<Line>, src: nat, dst: nat)
    requires Balanced(knipjes, lines)
    ensures Balanced(knipjes, MovedLines(lines, src, dst))
  {
    var moved := MovedLines(lines, src, dst);
    assert forall i :: 0 <= i < |lines| ==> moved[i] == MovedLine(lines[i], src, dst);
    ReplaysMarked(lines, moved);
    SumCongruent(lines, moved, LiveDelta);
    MoveReversals(lines, src, dst);
  }

  lemma MoveReversals(lines: seq<Line>, src: nat, dst: nat)
    requires Reversals(lines)
    ensures Reversals(MovedLines(lines, src, dst))
  {
    var moved := MovedLines(lines, src, dst);
    assert forall i :: 0 <= i < |lines| ==> moved[i] == MovedLine(lines[i], src, dst);
    forall i | 0 <= i < |moved| && moved[i].reverses.Some? ensures IsUndoOf(moved, i, moved[i].reverses.value) {
      assert IsUndoOf(lines, i, lines[i].reverses.value);
    }
  }

  lemma MoveFits(v: CardView, src: nat, dst: nat)
    requires ReasonsFit(v.card.kind, v.card.source, v.lines)
      && OrdersFit(v.card.owner, v.card.kind, v.card.source, v.orders, v.n)
    requires Untouched(v) && Reserved(v)
    ensures var w := MovedView(v, src, dst);
      && ReasonsFit(w.card.kind, w.card.source, w.lines)
      && OrdersFit(w.card.owner, w.card.kind, w.card.source, w.orders, w.n)
      && Untouched(w) && Reserved(w)
  {
    var w := MovedView(v, src, dst);
    SumCongruent(v.lines, w.lines, PunchWeight);
    TotalCongruent(v.orders, PendingQuantity, w.orders, PendingQuantity, v.n);
    forall i | 0 <= i < |w.lines| ensures FitsCard(v.card.kind, v.card.source, w.lines[i]) {
      assert FitsCard(v.card.kind, v.card.source, v.lines[i]);
    }
    forall o | o in w.orders ensures o < v.n && OrderFits(w.card.owner, v.card.kind, v.card.source, w.orders[o]) {
      assert OrderFits(v.card.owner, v.card.kind, v.card.source, v.orders[o]);
    }
  }

  lemma MoveKeeps(v: CardView, src: nat, dst: nat)
    requires CardOk(v)
    ensures CardOk(MovedView(v, src, dst))
  {
    MoveBalanced(v.card.knipjes, v.lines, src, dst);
    MoveDeliveries(v.IsOnline(), v.lines, v.orders, v.n, src, dst);
    MoveMeals(v.lines, v.days, src, dst);
    MoveFits(v, src, dst);
  }
}
