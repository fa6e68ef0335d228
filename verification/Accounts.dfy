/** What merging and deleting accounts leaves in every table, said of the rows themselves. */
module Accounts {
  import opened Prelude
  import opened Journal
  import opened Ledger
  import opened Invariant
  import opened Preservation
  import opened Lifecycle
  import opened Reservations
  import opened Effects

  // ----- Renaming -----

  /** A reference to `src` has become one to `dst`; any other is the same. */
  ghost predicate Follows(was: nat, now: nat, src: nat, dst: nat) {
    (was == src ==> now == dst) && (was != src ==> now == was)
  }

  ghost predicate FollowsOpt(was: Option<nat>, now: Option<nat>, src: nat, dst: nat) {
    (was == Some(src) ==> now == Some(dst)) && (was != Some(src) ==> now == was)
  }

  ghost predicate CardFollows(was: Card, now: Card, src: nat, dst: nat) {
    Follows(was.owner, now.owner, src, dst) && now == was.(owner := now.owner)
  }

  ghost predicate RequestFollows(was: Request, now: Request, src: nat, dst: nat) {
    && Follows(was.user, now.user, src, dst) && now == was.(user := now.user, status := now.status)
    && match was.status
       case Fulfilled(who, month) =>
         now.status.Fulfilled? && now.status.month == month && FollowsOpt(who, now.status.who, src, dst)
       case _ => now.status == was.status
  }

  ghost predicate OrderFollows(was: Order, now: Order, src: nat, dst: nat) {
    && Follows(was.user, now.user, src, dst) && now == was.(user := now.user, status := now.status)
    && match was.status
       case Pending => now.status == Pending
       case Delivered(who) => now.status.Delivered? && FollowsOpt(who, now.status.who, src, dst)
       case Cancelled(who) => now.status.Cancelled? && FollowsOpt(who, now.status.who, src, dst)
  }

  ghost predicate LinesFollow(was: seq<Line>, now: seq<Line>, src: nat, dst: nat) {
    && |now| == |was|
    && forall i :: 0 <= i < |was| ==>
         FollowsOpt(was[i].actor, now[i].actor, src, dst) && now[i] == was[i].(actor := now[i].actor)
  }

  ghost predicate ActorsFollow<K(!new)>(was: map<K, Option<nat>>, now: map<K, Option<nat>>, src: nat, dst: nat) {
    now.Keys == was.Keys && forall k :: k in was ==> FollowsOpt(was[k], now[k], src, dst)
  }

  /** Every row is still there, with `dst` wherever it said `src`. */
  ghost predicate AllFollow(db: Db, after: Db, src: nat, dst: nat) {
    && after.cards.next == db.cards.next && after.cards.rows.Keys == db.cards.rows.Keys
    && (forall c :: c in db.cards.rows ==> CardFollows(db.cards.rows[c], after.cards.rows[c], src, dst))
    && after.requests.next == db.requests.next && after.requests.rows.Keys == db.requests.rows.Keys
    && (forall r :: r in db.requests.rows ==> RequestFollows(db.requests.rows[r], after.requests.rows[r], src, dst))
    && after.orders.next == db.orders.next && after.orders.rows.Keys == db.orders.rows.Keys
    && (forall o :: o in db.orders.rows ==> OrderFollows(db.orders.rows[o], after.orders.rows[o], src, dst))
    && after.log.Keys == db.log.Keys
    && (forall c :: c in db.log ==> LinesFollow(db.log[c], after.log[c], src, dst))
    && ActorsFollow(db.meals, after.meals, src, dst) && ActorsFollow(db.books, after.books, src, dst)
  }

  lemma RenamedFollows(db: Db, src: nat, dst: nat)
    ensures AllFollow(db, Renamed(db, src, dst), src, dst)
  {
    var after := Renamed(db, src, dst);
    forall c | c in db.log ensures LinesFollow(db.log[c], after.log[c], src, dst) {}
  }

  // ----- Merge -----

  /** Both accounts hold an open request of one kind. */
  ghost predicate Clash(db: Db, src: nat, dst: nat) {
    exists kind :: Claims(db, src, kind) && Claims(db, dst, kind)
  }

  /** A merge succeeds exactly from a local account that is not the placeholder into another account that signs in with
      Google, neither of them the actor's own, when they hold no open request of one kind. Everything of the first is
      then the second's; the first account is gone, the second belongs to the matroos youth if either did, and is
      otherwise, like all other accounts, as it was. */
  lemma MergeEffect(db: Db, src: nat, dst: nat, actor: nat)
    requires Inv(db)
    ensures Merge(db, src, dst, actor).Ok? <==>
      && src != dst && actor != src && actor != dst && src in db.users.rows && dst in db.users.rows
      && db.users.rows[src].login.Some? && db.users.rows[src].login != Some("verwijderd-lid")
      && db.users.rows[dst].google && !Clash(db, src, dst)
    ensures Merge(db, src, dst, actor).Ok? ==>
      var after := Merge(db, src, dst, actor).value;
      && AllFollow(db, after, src, dst)
      && after.users.next == db.users.next && after.users.rows.Keys == db.users.rows.Keys - {src}
      && (forall u :: u in after.users.rows && u != dst ==> after.users.rows[u] == db.users.rows[u])
      && after.users.rows[dst]
           == db.users.rows[dst].(matroos := db.users.rows[dst].matroos || db.users.rows[src].matroos)
  {
    hide Inv, Merge, Renamed, AllFollow, BothOpen, Clash, MergedUsers;
    MergeOutcome(db, src, dst, actor);
    ClashBothWays(db, src, dst);
    RenamedFollows(db, src, dst);
    FollowsIgnoresUsers(db, db, Renamed(db, src, dst), MergedUsers(db, src, dst), src, dst);
    if MergeAllowed(db, src, dst, actor) { UsersMerged(db, src, dst); }
  }

  lemma UsersMerged(db: Db, src: nat, dst: nat)
    requires src in db.users.rows && dst in db.users.rows && src != dst
    ensures var users := MergedUsers(db, src, dst);
      && users.next == db.users.next && users.rows.Keys == db.users.rows.Keys - {src}
      && (forall u :: u in users.rows && u != dst ==> users.rows[u] == db.users.rows[u])
      && users.rows[dst]
           == db.users.rows[dst].(matroos := db.users.rows[dst].matroos || db.users.rows[src].matroos)
  {}

  lemma FollowsIgnoresUsers(db: Db, same: Db, after: Db, users: Table<User>, src: nat, dst: nat)
    requires AllFollow(db, after, src, dst) && same == db.(users := same.users)
    ensures AllFollow(same, after.(users := users), src, dst)
  {
    hide CardFollows, RequestFollows, OrderFollows, LinesFollow, ActorsFollow;
  }

  lemma ClashBothWays(db: Db, src: nat, dst: nat)
    ensures BothOpen(db.requests.rows, src, dst) <==> Clash(db, src, dst)
  {
    if BothOpen(db.requests.rows, src, dst) {
      var r, s :| r in db.requests.rows && s in db.requests.rows && IsOpenOf(db.requests.rows[r], src)
        && IsOpenOf(db.requests.rows[s], dst) && db.requests.rows[r].kind == db.requests.rows[s].kind;
      assert Claims(db, src, db.requests.rows[r].kind) && Claims(db, dst, db.requests.rows[r].kind);
    }
  }

  /** The first refusal that applies is the one reported. */
  lemma MergeRefusals(db: Db, src: nat, dst: nat, actor: nat)
    requires Inv(db) && src != dst && actor != src && actor != dst
    ensures Merge(db, src, dst, actor) == Err(NotFound) <==>
      || src !in db.users.rows
      || (dst !in db.users.rows && db.users.rows[src].login.Some? && db.users.rows[src].login != Some("verwijderd-lid"))
    ensures Merge(db, src, dst, actor) == Err(SystemUser) <==>
      src in db.users.rows && db.users.rows[src].login == Some("verwijderd-lid")
    ensures Merge(db, src, dst, actor) == Err(MergeSourceNotLocal) <==>
      src in db.users.rows && db.users.rows[src].login.None?
  {
    hide Inv, BothOpen;
    MergeOutcome(db, src, dst, actor);
  }

  // ----- Delete -----

  /** From the accounts `was` to the accounts `now`: `user` is gone, and `keeper`, the account "Verwijderde leden", is
      there or has been added. */
  ghost predicate Keeper(was: Table<User>, now: Table<User>, user: nat, keeper: nat) {
    && keeper != user && keeper in now.rows && now.rows[keeper].login == Some("verwijderd-lid")
    && if keeper in was.rows then now == was.(rows := was.rows - {user})
       else
         && (forall u :: u in was.rows ==> was.rows[u].login != Some("verwijderd-lid"))
         && keeper == was.next
         && now == Table(was.rows[keeper := User(Some("verwijderd-lid"), false, false, true)] - {user}, was.next + 1)
  }

  /** The deleted user's open requests. */
  ghost function OpenBy(db: Db, user: nat): set<nat> {
    set r | r in db.requests.rows && db.requests.rows[r].status == Open && db.requests.rows[r].user == user
  }

  /** The user's pending orders are cancelled by the actor; all other orders are as they were. */
  ghost predicate Cancels(db: Db, after: Db, user: nat, actor: nat) {
    && after == db.(orders := after.orders) && after.orders.next == db.orders.next
    && after.orders.rows.Keys == db.orders.rows.Keys
    && forall o :: o in db.orders.rows ==>
         var row := db.orders.rows[o];
         after.orders.rows[o]
           == if row.user == user && row.status == Pending then row.(status := Cancelled(Some(actor))) else row
  }

  lemma CancelsOrders(db: Db, user: nat, actor: nat)
    ensures Cancels(db, CancelOrdersOf(db, user, actor), user, actor)
  {}

  lemma PlaceholderKept(db: Db, user: nat)
    requires db.users.Valid() && user in db.users.rows && db.users.rows[user].login != Some("verwijderd-lid")
    ensures var (kept, keeper) := WithPlaceholder(db);
      && kept == db.(users := kept.users)
      && Keeper(db.users, kept.users.(rows := kept.users.rows - {user}), user, keeper)
  {}

  /** A deletion succeeds exactly for the disabled account of someone else that is not the placeholder. It cancels the
      user's open requests and drops their cards, cancels what the user had ordered and not received, gives all that is
      left to the placeholder, and takes the account away. */
  lemma DeleteEffect(db: Db, user: nat, actor: nat)
    requires Inv(db)
    ensures DeleteUser(db, user, actor).Ok? <==>
      && user != actor && user in db.users.rows && db.users.rows[user].disabled
      && db.users.rows[user].login != Some("verwijderd-lid")
    ensures DeleteUser(db, user, actor) == Err(UserNotDisabled) <==>
      && user != actor && user in db.users.rows && !db.users.rows[user].disabled
      && db.users.rows[user].login != Some("verwijderd-lid")
    ensures DeleteUser(db, user, actor).Ok? ==>
      exists withdrawn, cancelled, keeper ::
        && Withdrew(db, withdrawn, OpenBy(db, user))
        && Cancels(withdrawn, cancelled, user, actor)
        && AllFollow(cancelled, DeleteUser(db, user, actor).value, user, keeper)
        && Keeper(db.users, DeleteUser(db, user, actor).value.users, user, keeper)
  {
    hide CardsOk, RequestsOk;
    DeleteOutcome(db, user, actor);
    if DeleteUser(db, user, actor).Ok? {
      var withdrawn := Withdraw(db, OpenOf(db.requests.rows, user));
      var cancelled := CancelOrdersOf(withdrawn, user, actor);
      var (closed, keeper) := WithPlaceholder(cancelled);
      var after := DeleteUser(db, user, actor).value;
      assert OpenOf(db.requests.rows, user) == OpenBy(db, user);
      assert OneRequestPerCard(db.requests.rows) by { OneEach(db); }
      assert db.users.Valid();
      hide Inv;
      WithdrawEffect(db, OpenBy(db, user));
      CancelsOrders(withdrawn, user, actor);
      PlaceholderKept(cancelled, user);
      RenamedFollows(closed, user, keeper);
      assert after == Renamed(closed, user, keeper).(users := closed.users.(rows := closed.users.rows - {user}));
      hide Withdraw, CancelOrdersOf, WithPlaceholder, DeleteUser, Renamed, OpenOf, AllFollow, Withdrew, Keeper;
      FollowsIgnoresUsers(closed, cancelled, Renamed(closed, user, keeper), after.users, user, keeper);
    }
  }

  lemma OneEach(db: Db)
    requires Inv(db)
    ensures OneRequestPerCard(db.requests.rows)
  {
    hide CardsOk;
  }

  /** No order of a deleted member waits at the counter any more: it has been cancelled by the actor, or is lost with a
      card that was never paid. Every other order keeps its status, and no order comes from nowhere. */
  lemma DeletedMemberOrders(db: Db, user: nat, actor: nat, o: nat)
    requires Inv(db) && DeleteUser(db, user, actor).Ok?
    ensures var after := DeleteUser(db, user, actor).value.orders.rows;
      && (o in after ==> o in db.orders.rows)
      && (o in db.orders.rows ==>
            var row := db.orders.rows[o];
            && (o !in after <==> row.user == user && row.card.Some? && !Paid(db, row.card.value))
            && (o in after && row.status == Pending ==>
                  after[o].status == if row.user == user then Cancelled(Some(actor)) else Pending)
            && (o in after && row.status != Pending ==>
                  after[o].status.Delivered? == row.status.Delivered? && after[o].status != Pending))
  {
    hide Inv, DeleteUser, Paid, AllFollow;
    DeleteEffect(db, user, actor);
    if o in db.orders.rows { HeldOwn(db, user, o); }
    hide OpenBy;
    var after := DeleteUser(db, user, actor).value;
    var withdrawn, cancelled, keeper :|
      && Withdrew(db, withdrawn, OpenBy(db, user)) && Cancels(withdrawn, cancelled, user, actor)
      && AllFollow(cancelled, after, user, keeper) && Keeper(db.users, after.users, user, keeper);
    hide Keeper, Held;
    OrdersFollow(cancelled, after, user, keeper, o);
  }

  lemma OrdersFollow(db: Db, after: Db, src: nat, dst: nat, o: nat)
    requires AllFollow(db, after, src, dst)
    ensures o in db.orders.rows <==> o in after.orders.rows
    ensures o in db.orders.rows ==> OrderFollows(db.orders.rows[o], after.orders.rows[o], src, dst)
  {}

  /** An open request of the user holds the card of an order exactly when the user ordered on an unpaid card. */
  lemma HeldOwn(db: Db, user: nat, o: nat)
    requires Inv(db) && o in db.orders.rows
    ensures var row := db.orders.rows[o];
      Held(db, OpenBy(db, user), row.card) <==> row.user == user && row.card.Some? && !Paid(db, row.card.value)
  {
    hide CardsOk;
    var row := db.orders.rows[o];
    if row.card.Some? {
      assert OrderLinked(db.cards.rows, row);
      OrderOnCard(db, row.card.value, o);
      forall r | r in db.requests.rows && db.requests.rows[r].card == row.card
        ensures db.requests.rows[r].user == row.user
      {
        assert RequestFits(db.cards.rows, db.requests.rows[r]);
      }
    }
  }
}
