/** The cases of the hub's event loop as they change its maps and channels in place. */
module HubLoop {
  import opened Prelude
  import opened Hub

  class EventLoop {
    var clients: map<nat, Client>
    var kraam: set<nat>
    var users: map<int, set<nat>>

    /** The maps as a state of the hub, between two turns of the loop. */
    function View(): State
      reads this
    {
      START.(clients := clients, kraam := kraam, users := users)
    }

    ghost predicate Valid()
      reads this
    {
      HubOk(View())
    }

    constructor ()
      ensures View() == START && Valid()
    {
      clients, kraam, users := map[], {}, map[];
    }

    /** close(c.send); the caller has seen that it is open. */
    method CloseSend(c: nat)
      requires c in clients && !clients[c].send.closed
      modifies this`clients
      ensures View() == Hub.Close(old(View()), c)
    {
      clients := clients[c := clients[c].(send := clients[c].send.(closed := true))];
    }

    /** select { case c.send <- msg: default: } on an open channel. */
    method Offer(c: nat, msg: Msg)
      requires c in clients && !clients[c].send.closed
      modifies this`clients
      ensures View() == TrySend(old(View()), c, msg)
    {
      var ch := clients[c].send;
      if |ch.buffer| < CLIENT_SEND_BUF {
        clients := clients[c := clients[c].(send := ch.(buffer := ch.buffer + [msg]))];
      }
    }

    method RegisterKraam(c: nat)
      requires c in clients && clients[c].kind == Kraam
      modifies this`kraam
      ensures View() == Register(old(View()), c)
    {
      kraam := kraam + {c};
    }

    method UnregisterKraam(c: nat)
      requires Valid() && c in clients && clients[c].kind == Kraam
      modifies this`kraam, this`clients
      ensures View() == Unregister(old(View()), c) && !View().panicked
    {
      assert c in kraam ==> IsKraam(clients, c);
      if c in kraam {
        kraam := kraam - {c};
        CloseSend(c);
      }
    }

    method RegisterUser(user: int, c: nat)
      requires c in clients && clients[c].kind == Member(user)
      modifies this`users
      ensures View() == Register(old(View()), c)
    {
      if user !in users { users := users[user := {}]; }
      users := users[user := users[user] + {c}];
    }

    method UnregisterUser(user: int, c: nat)
      requires Valid() && c in clients && clients[c].kind == Member(user)
      modifies this`users, this`clients
      ensures View() == Unregister(old(View()), c) && !View().panicked
    {
      assert InUsers(users, user, c) ==> IsMember(clients, user, c);
      if user in users && c in users[user] {
        users := users[user := users[user] - {c}];
        if |users[user]| == 0 { users := users - {user}; }
        CloseSend(c);
      }
    }

    /** The loop over a set of registered clients: each gets the hint, or already has a full buffer. */
    method FanOutTo(targets: set<nat>, msg: Msg)
      requires forall c :: c in targets ==> c in clients && !clients[c].send.closed
      modifies this`clients
      ensures clients == AllSent(old(clients), targets, msg)
    {
      var todo := targets;
      ghost var before := clients;
      while todo != {}
        invariant todo <= targets && clients == AllSent(before, targets - todo, msg)
        decreases |todo|
      {
        var c :| c in todo;
        assert clients[c] == before[c];
        Offer(c, msg);
        todo := todo - {c};
      }
      assert targets - {} == targets;
    }

    method BroadcastToKraam(msg: Msg)
      requires Valid()
      modifies this`clients
      ensures clients == AllSent(old(clients), kraam, msg) && Valid()
    {
      assert forall c :: c in kraam ==> IsKraam(clients, c);
      ghost var s := View();
      FanOutTo(kraam, msg);
      SentKeeps(s, kraam, msg);
    }

    /** The nested loop over all users and their clients: nobody is reached twice, for a client has one user. */
    method BroadcastToMembers(msg: Msg)
      requires Valid()
      modifies this`clients
      ensures clients == AllSent(old(clients), AllMembers(users), msg) && Valid()
    {
      ghost var s := View();
      var todo := users.Keys;
      assert AllSent(clients, {}, msg) == clients && MembersUnder(users, users.Keys - todo) == {};
      while todo != {}
        invariant todo <= users.Keys && clients == AllSent(s.clients, MembersUnder(users, users.Keys - todo), msg)
        decreases |todo|
      {
        assert exists u :: u in todo by { SomeUser(todo); }
        var u :| u in todo;
        assert forall c :: c in users[u] ==> InUsers(users, u, c) && IsMember(s.clients, u, c);
        OneUserMore(s.clients, users, users.Keys - todo, u, msg);
        assert users.Keys - (todo - {u}) == users.Keys - todo + {u};
        FanOutTo(users[u], msg);
        todo := todo - {u};
      }
      assert MembersUnder(users, users.Keys - {}) == AllMembers(users);
      SentKeeps(s, AllMembers(users), msg);
    }

    method NotifyUser(user: int, msg: Msg)
      requires Valid()
      modifies this`clients
      ensures clients == (if user == 0 then old(clients) else AllSent(old(clients), MembersOf(users, user), msg))
        && Valid()
    {
      if user == 0 { return; }
      var targets := if user in users then users[user] else {};
      assert forall c :: c in targets ==> InUsers(users, user, c) && IsMember(clients, user, c);
      ghost var s := View();
      FanOutTo(targets, msg);
      SentKeeps(s, targets, msg);
    }
  }

  lemma SomeUser(us: set<int>)
    ensures us == {} || exists u :: u in us
  {
    if forall u :: u !in us { assert us == {}; }
  }

  /** The clients of some of the users. */
  function MembersUnder(users: map<int, set<nat>>, us: set<int>): set<nat> {
    set u, c | u in us && u in users && c in users[u] :: c
  }

  lemma OneUserMore(clients: map<nat, Client>, users: map<int, set<nat>>, us: set<int>, u: int, msg: Msg)
    requires u in users && u !in us && (forall v, c :: InUsers(users, v, c) ==> IsMember(clients, v, c))
    ensures AllSent(AllSent(clients, MembersUnder(users, us), msg), users[u], msg)
      == AllSent(clients, MembersUnder(users, us + {u}), msg)
  {
    forall c | c in users[u] ensures c !in MembersUnder(users, us) {
      assert InUsers(users, u, c);
      forall v | v in us && v in users ensures c !in users[v] { assert InUsers(users, v, c) ==> IsMember(clients, v,
          c); }
    }
    assert MembersUnder(users, us + {u}) == MembersUnder(users, us) + users[u];
  }

  function Sent(client: Client, msg: Msg): Client {
    if |client.send.buffer| < CLIENT_SEND_BUF then
      client.(send := client.send.(buffer := client.send.buffer + [msg])) else client
  }

  /** Every target has the hint at the end of its buffer, unless that was full; nobody else notices. */
  function AllSent(clients: map<nat, Client>, targets: set<nat>, msg: Msg): map<nat, Client> {
    map c | c in clients :: if c in targets then Sent(clients[c], msg) else clients[c]
  }

  lemma SentKeeps(s: State, targets: set<nat>, msg: Msg)
    requires HubOk(s)
    ensures HubOk(s.(clients := AllSent(s.clients, targets, msg)))
  {
    hide InUsers;
    var after := s.(clients := AllSent(s.clients, targets, msg));
    forall u, c ensures IsMember(after.clients, u, c) <==> IsMember(s.clients, u, c) {}
    forall c ensures IsKraam(after.clients, c) <==> IsKraam(s.clients, c) {}
  }
}
