/** Which error an operation ends in, and that each error has exactly its own cause. */
module Refusals {
  import opened Prelude
  import opened Journal
  import opened Ledger
  import opened Invariant
  import opened Calendar
  import opened Text
  import opened BankCredits
  import opened Rounding
  import opened Reconciliation
  import opened Reservations
  import opened Effects
  import opened OfficeEffects

  // ----- Counter -----

  /** What is wrong with an order before its card is looked at. */
  lemma OrderInput(db: Db, user: nat, card: Option<nat>, bread: string, filling: string, quantity: int, remark: string)
    ensures var r := CreateOrder(db, user, card, bread, filling, quantity, remark);
      && (r == Err(InvalidRemark) <==> |remark| > 500)
      && (r == Err(InvalidQuantity) <==> |remark| <= 500 && !(1 <= quantity <= 10))
      && (r == Err(InvalidBread) <==> |remark| <= 500 && 1 <= quantity <= 10 && bread !in {"wit", "bruin"})
      && (r == Err(InvalidFilling) <==>
            && |remark| <= 500 && 1 <= quantity <= 10 && bread in {"wit", "bruin"}
            && filling !in {"ham", "kaas", "ham_kaas"})
  {}

  /** What is wrong with the card of an order that is itself in order. */
  lemma OrderCard(db: Db, user: nat, c: nat, bread: string, filling: string, quantity: int, remark: string)
    requires |remark| <= 500 && 1 <= quantity <= 10 && OnMenu(bread, filling)
    ensures var r := CreateOrder(db, user, Some(c), bread, filling, quantity, remark);
      var own := c in db.cards.rows && db.cards.rows[c].owner == user;
      && (r == Err(Error.NotFound) <==> !own)
      && (r == Err(CardNotForTosti) <==> own && db.cards.rows[c].kind == Avondeten)
      && (r == Err(CardPhysicalReadonly) <==>
            own && db.cards.rows[c].kind == Tosti && db.cards.rows[c].source == Physical)
  {}

  /** A pending order of somebody else is not a member's to cancel. */
  lemma OrderNotCancelled(db: Db, o: nat, actor: nat, staff: bool)
    ensures var r := CancelOrder(db, o, actor, staff);
      && (r == Err(Error.NotFound) <==> o !in db.orders.rows)
      && (r == Err(OrderNotPending) <==> o in db.orders.rows && db.orders.rows[o].status != Pending)
      && (r == Err(OrderWrongUser) <==>
            o in db.orders.rows && db.orders.rows[o].status == Pending && !staff && db.orders.rows[o].user != actor)
  {}

  lemma PunchRefused(db: Db, c: nat, actor: Option<Actor>)
    ensures var r, staff := UseKnipje(db, c, actor), actor.Some? && (actor.value.admin || actor.value.operator);
      && (r == Err(Forbidden) <==> !staff)
      && (r == Err(Error.NotFound) <==> staff && c !in db.cards.rows)
      && (c in db.cards.rows ==>
            && (r == Err(CardPhysicalReadonly) <==> staff && db.cards.rows[c].source == Physical)
            && (r == Err(NoKnipjes) <==> staff && db.cards.rows[c].source == Online && db.cards.rows[c].knipjes <= 0)
            && (r == Err(CardNotVerified) <==>
                  staff && db.cards.rows[c].source == Online && db.cards.rows[c].knipjes > 0 && !Paid(db, c)))
  {
    PaidExactly(db, c);
    hide AwaitsVerification, Paid;
  }

  lemma EstimateRefused(db: Db, c: nat, value: int, actor: nat)
    ensures var r := SetEstimate(db, c, value, actor);
      && (r == Err(EstimateOutOfRange) <==> !(0 <= value <= 10))
      && (r == Err(Error.NotFound) <==> 0 <= value <= 10 && c !in db.cards.rows)
      && (r == Err(CardNotPhysical) <==> 0 <= value <= 10 && c in db.cards.rows && db.cards.rows[c].source == Online)
  {}

  lemma UndoRefused(db: Db, c: nat, i: nat, actor: nat)
    requires db.log.Keys == db.cards.rows.Keys
    ensures var r, given := UndoLineAt(db, c, i, actor), {TostiDelivered, AvondetenMeal, ManualKnipje, EstimateAdjust};
      && (r == Err(Error.NotFound) <==> !(c in db.log && i < |db.log[c]|))
      && (c in db.log && i < |db.log[c]| ==>
            var line := db.log[c][i];
            && (r == Err(TxNotUndoable) <==> line.reason !in given || (line.reversedBy.None? && line.delta == 0))
            && (r == Err(UndoOutOfRange) <==>
                  && line.reason in given && line.reversedBy.None? && line.delta != 0
                  && !(0 <= db.cards.rows[c].knipjes - line.delta <= 10)))
  {}

  /** Why no meal can be booked on a card. */
  ghost predicate CannotEat(db: Db, c: nat, day: int, why: Error) {
    match why
    case NotFound => c !in db.cards.rows
    case WrongCardKind => c in db.cards.rows && db.cards.rows[c].kind == Tosti
    case NoKnipjes => c in db.cards.rows && db.cards.rows[c].kind == Avondeten && db.cards.rows[c].knipjes <= 0
    case CardNotVerified =>
      c in db.cards.rows && db.cards.rows[c].kind == Avondeten && db.cards.rows[c].knipjes > 0 && !Paid(db, c)
    case MealAlreadyRegistered =>
      && c in db.cards.rows && db.cards.rows[c].kind == Avondeten && db.cards.rows[c].knipjes > 0 && Paid(db, c)
      && MealKey(c, day) in db.meals
    case _ => false
  }

  lemma MealErrorExactly(db: Db, c: nat, day: int)
    ensures MealError(db, c, day).None? <==> Eats(db, c, day)
    ensures MealError(db, c, day).Some? ==> CannotEat(db, c, day, MealError(db, c, day).value)
  {
    PaidExactly(db, c);
    hide AwaitsVerification, Paid;
  }

  /** A batch that is refused is refused for the first card on the list that cannot take a meal. */
  lemma {:induction false} MealsRefused(db: Db, ids: seq<int>, day: int, who: nat)
    requires RegisterMeals(db, ids, day, who).Err?
    ensures exists i: nat ::
      && i < |ids| && ids[i] > 0 && CannotEat(db, ids[i], day, RegisterMeals(db, ids, day, who).error)
      && forall j :: 0 <= j < i && ids[j] > 0 ==> Eats(db, ids[j], day)
  {
    hide MealError, CannotEat, Eats;
    if ids[0] > 0 && MealError(db, ids[0], day).Some? {
      MealErrorExactly(db, ids[0], day);
    } else {
      if ids[0] > 0 { MealErrorExactly(db, ids[0], day); }
      MealsRefused(db, ids[1..], day, who);
      var i: nat :|
        && i < |ids| - 1 && ids[1..][i] > 0 && CannotEat(db, ids[1..][i], day, RegisterMeals(db, ids, day, who).error)
        && forall j :: 0 <= j < i && ids[1..][j] > 0 ==> Eats(db, ids[1..][j], day);
      assert forall j :: 0 < j < i + 1 ==> ids[j] == ids[1..][j - 1];
      assert ids[i + 1] == ids[1..][i];
    }
  }

  // ----- Office -----

  /** Why an open credit cannot be linked to a request that exists. */
  lemma LinkRefused(credits: Table<Credit>, requests: map<nat, Request>, b: nat, r: nat)
    requires b in credits.rows && credits.rows[b].status == OpenRevenue
    ensures var result, credit := Link(credits, requests, b, r), credits.rows[b];
      && (result == Err(RequestNotFound) <==> r !in requests)
      && (r in requests ==>
            var sale := requests[r];
            var fits := sale.price == Some(credit.amount)
              && sale.kind == (if credit.purpose == LunchPurpose then Tosti else Avondeten);
            && (result == Err(NoSalePrice) <==> sale.price.None?)
            && (result == Err(NotFulfilled) <==> sale.price.Some? && !sale.status.Fulfilled?)
            && (result == Err(Mismatch) <==> sale.price.Some? && sale.status.Fulfilled? && !fits)
            && (result == Err(AlreadyMatched) <==>
                  && sale.status.Fulfilled? && fits
                  && exists a :: a in credits.rows && a != b && credits.rows[a].sale == Some(r)))
  {
    if r in requests && requests[r].price.Some? {
      TolerantIsExact(credits.rows[b].amount, requests[r].price.value);
    }
    hide AmountsMatch, Eur;
  }

  // ----- Accounts -----

  lemma DeletionRefused(db: Db, user: nat, actor: nat)
    requires user == actor || user !in db.users.rows || db.users.rows[user].login == Some("verwijderd-lid")
      || !db.users.rows[user].disabled
    ensures var r := DeleteUser(db, user, actor);
      && (r == Err(CannotChangeSelf) <==> user == actor)
      && (r == Err(Error.NotFound) <==> user != actor && user !in db.users.rows)
      && (r == Err(SystemUser) <==>
            user != actor && user in db.users.rows && db.users.rows[user].login == Some("verwijderd-lid"))
  {}

  lemma MergeRefused(db: Db, src: nat, dst: nat, actor: nat)
    requires src == dst || src == actor || dst == actor
    ensures Merge(db, src, dst, actor) == Err(if src == dst then MergeTargetNotGoogle else CannotChangeSelf)
  {}
}
