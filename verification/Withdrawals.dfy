/** Cancelling open requests one at a time, with their cards, against cancelling them together. */
module Withdrawals {
  import opened Prelude
  import opened Ledger

  function MarkWithdrawn(requests: map<nat, Request>, rs: set<nat>): map<nat, Request> {
    map r | r in requests :: if r in rs then requests[r].(status := Withdrawn) else requests[r]
  }

  lemma NothingWithdrawn(db: Db)
    ensures Withdraw(db, {}) == db
  {
    assert CardsOf(db.requests.rows, {}) == {};
    var after := Withdraw(db, {});
    assert after.cards.rows == db.cards.rows && after.requests.rows == db.requests.rows && after.orders.rows
      == db.orders.rows;
    assert after.meals == db.meals && after.log == db.log;
  }

  lemma WithdrawOne(db: Db, r: nat)
    requires r in db.requests.rows
    ensures var marked := db.(requests := db.requests.Put(r, db.requests.rows[r].(status := Withdrawn)));
      Withdraw(db, {r}) == if db.requests.rows[r].card.Some? then
        DeleteCards(marked, {db.requests.rows[r].card.value}) else marked
  {
    var row := db.requests.rows[r];
    var marked := db.(requests := db.requests.Put(r, row.(status := Withdrawn)));
    assert marked.requests.rows == MarkWithdrawn(db.requests.rows, {r});
    if row.card.Some? {
      assert CardsOf(db.requests.rows, {r}) == {row.card.value};
    } else {
      assert CardsOf(db.requests.rows, {r}) == {};
      NothingWithdrawn(marked);
      assert CardsOf(marked.requests.rows, {}) == {};
      assert MarkWithdrawn(marked.requests.rows, {}) == marked.requests.rows;
      assert DeleteCards(marked, {}) == marked;
    }
  }

  lemma CardsOfNext(requests: map<nat, Request>, rs: set<nat>, r: nat)
    requires r in requests
    ensures CardsOf(requests, rs + {r})
      == CardsOf(requests, rs) + (if requests[r].card.Some? then {requests[r].card.value} else {})
  {}

  /** A request that has not been withdrawn yet still has its card, unless that card went with another request. */
  lemma MarkNext(requests: map<nat, Request>, done: set<nat>, r: nat)
    requires r in requests && r !in done
    ensures var mid := Unlinked(MarkWithdrawn(requests, done), CardsOf(requests, done));
      CardsOf(requests, done) + CardsOf(mid, {r}) == CardsOf(requests, done + {r})
  {
    var mid := Unlinked(MarkWithdrawn(requests, done), CardsOf(requests, done));
    CardsOfNext(requests, done, r);
    OneCard(mid, r);
  }

  lemma OneCard(requests: map<nat, Request>, r: nat)
    requires r in requests
    ensures CardsOf(requests, {r}) == if requests[r].card.Some? then {requests[r].card.value} else {}
  {}

  lemma MarkTwice(requests: map<nat, Request>, done: set<nat>, r: nat, a: set<nat>, b: set<nat>)
    ensures Unlinked(MarkWithdrawn(Unlinked(MarkWithdrawn(requests, done), a), {r}), b)
      == Unlinked(MarkWithdrawn(requests, done + {r}), a + b)
  {}

  /** card_id becomes NULL where it pointed at a deleted card. */
  function Unlinked(requests: map<nat, Request>, gone: set<nat>): map<nat, Request> {
    map r | r in requests :: if OnCards(requests[r].card, gone) then requests[r].(card := None) else requests[r]
  }

  lemma WithdrawParts(db: Db, rs: set<nat>)
    ensures Withdraw(db, rs).requests.rows
      == Unlinked(MarkWithdrawn(db.requests.rows, rs), CardsOf(db.requests.rows, rs))
    ensures Withdraw(db, rs) == DeleteCards(db, CardsOf(db.requests.rows, rs)).(requests := Withdraw(db, rs).requests)
    ensures Withdraw(db, rs).requests.next == db.requests.next
  {}

  lemma DeleteTwice(db: Db, a: set<nat>, b: set<nat>)
    ensures var one, all := DeleteCards(DeleteCards(db, a), b), DeleteCards(db, a + b);
      one.cards == all.cards && one.orders == all.orders && one.meals == all.meals && one.log
        == all.log && one.users == all.users && one.books == all.books
  {
    var one, all := DeleteCards(DeleteCards(db, a), b), DeleteCards(db, a + b);
    assert one.cards.rows == all.cards.rows;
    assert one.orders.rows == all.orders.rows;
  }

  /** DeleteCards reads the other tables only where it changes them. */
  lemma DeleteIgnoresRequests(db: Db, t: Table<Request>, gone: set<nat>)
    ensures DeleteCards(db.(requests := t), gone)
      == DeleteCards(db, gone).(requests := DeleteCards(db.(requests := t), gone).requests)
  {}

  /** Withdrawing requests one at a time is withdrawing them together. */
  lemma WithdrawNext(db: Db, done: set<nat>, r: nat)
    requires r in db.requests.rows && r !in done
    ensures r in Withdraw(db, done).requests.rows
    ensures Withdraw(Withdraw(db, done), {r}) == Withdraw(db, done + {r})
  {
    var mid := Withdraw(db, done);
    var a, b := CardsOf(db.requests.rows, done), CardsOf(mid.requests.rows, {r});
    MarkNext(db.requests.rows, done, r);
    MarkTwice(db.requests.rows, done, r, a, b);
    hide CardsOf, MarkWithdrawn, Unlinked;
    WithdrawParts(db, done);
    WithdrawParts(mid, {r});
    WithdrawParts(db, done + {r});
    hide Withdraw, DeleteCards;
    DeleteTwice(db, a, b);
    DeleteIgnoresRequests(DeleteCards(db, a), mid.requests, b);
  }
}
