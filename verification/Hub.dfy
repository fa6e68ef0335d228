/** The realtime hub: one event loop, any number of client goroutines, and callers that signal without waiting. */
module Hub {
  import opened Prelude

  datatype Msg = TostiQueue | MyTostiOrders | TostiPublicQueue | PaymentRequests | UserProfile

  /** A client's send channel. */
  datatype Chan = Chan(buffer: seq<Msg>, closed: bool)

  /** What a connection subscribes to. */
  datatype Kind = Kraam | Member(user: int)

  /** Where a connection's goroutine is: before it registers, reading, about to unregister, or done. */
  datatype Stage = Connecting | Reading | Leaving | Gone
  datatype Client = Client(kind: Kind, stage: Stage, send: Chan)

  /** What the event loop is doing: waiting in its select, or half-way through a fan-out with `todo` clients left. */
  datatype Loop = Idle | FanOut(msg: Msg, todo: set<nat>)

  const CLIENT_SEND_BUF := 8
  const BROADCAST_BUF := 64
  const NOTIFY_BUF := 256

  /** `kraam` and `users` are the hub's registries. `started` counts kraam fan-outs begun; `panicked` records a send on,
      or a close of, a closed channel. */
  datatype State = State(
    clients: map<nat, Client>, kraam: set<nat>, users: map<int, set<nat>>, loop: Loop,
    kraamTokens: nat, paymentTokens: nat, memberTokens: nat, tostiNotices: seq<int>, profileNotices: seq<int>,
    started: nat, panicked: bool)

  const START := State(map[], {}, map[], Idle, 0, 0, 0, [], [], 0, false)

  // ----- The cases of the select -----

  function SetStage(s: State, c: nat, stage: Stage): State
    requires c in s.clients
  {
    s.(clients := s.clients[c := s.clients[c].(stage := stage)])
  }

  /** close(c.send). */
  function Close(s: State, c: nat): State
    requires c in s.clients
  {
    var ch := s.clients[c].send;
    s.(clients := s.clients[c := s.clients[c].(send := ch.(closed := true))], panicked := s.panicked || ch.closed)
  }

  /** A send that gives up when the buffer is full. */
  function TrySend(s: State, c: nat, msg: Msg): State
    requires c in s.clients
  {
    var ch := s.clients[c].send;
    if ch.closed then s.(panicked := true)
    else if |ch.buffer| < CLIENT_SEND_BUF then
      s.(clients := s.clients[c := s.clients[c].(send := ch.(buffer := ch.buffer + [msg]))])
    else s
  }

  function UsersWith(users: map<int, set<nat>>, user: int, c: nat): map<int, set<nat>> {
    users[user := (if user in users then users[user] else {}) + {c}]
  }

  function UsersWithout(users: map<int, set<nat>>, user: int, c: nat): map<int, set<nat>>
    requires user in users
  {
    if users[user] - {c} == {} then users - {user} else users[user := users[user] - {c}]
  }

  function Register(s: State, c: nat): State
    requires c in s.clients
  {
    match s.clients[c].kind
    case Kraam => s.(kraam := s.kraam + {c})
    case Member(user) => s.(users := UsersWith(s.users, user, c))
  }

  function Unregister(s: State, c: nat): State
    requires c in s.clients
  {
    match s.clients[c].kind
    case Kraam => if c in s.kraam then Close(s.(kraam := s.kraam - {c}), c) else s
    case Member(user) =>
      if user in s.users && c in s.users[user] then Close(s.(users := UsersWithout(s.users, user, c)), c) else s
  }

  function MembersOf(users: map<int, set<nat>>, user: int): set<nat> {
    if user in users then users[user] else {}
  }

  function AllMembers(users: map<int, set<nat>>): set<nat> {
    set u, c | u in users && c in users[u] :: c
  }

  // ----- Steps -----

  datatype Action =
    | Connect(c: nat, kind: Kind) | RegisterStep(c: nat) | Hangup(c: nat) | UnregisterStep(c: nat) | Consume(c: nat)
    | BroadcastKraam | BroadcastPayments | BroadcastMembers | NotifyTosti(user: int) | NotifyProfile(user: int)
    | StartKraam | StartPayments | StartMembers | StartTosti | StartProfile
    | SendOne(c: nat) | EndFanOut

  /** A token channel: a signal that finds the buffer full is dropped. */
  function AddToken(n: nat): nat { if n < BROADCAST_BUF then n + 1 else n }

  function AddNotice(q: seq<int>, user: int): seq<int> {
    if user != 0 && |q| < NOTIFY_BUF then q + [user] else q
  }

  /** The registered clients that a notice reaches. */
  function Noticed(s: State, msg: Msg, user: int): Loop {
    if user == 0 then Idle else FanOut(msg, MembersOf(s.users, user))
  }

  predicate Enabled(s: State, a: Action) {
    match a
    case Connect(c, _) => c !in s.clients
    case RegisterStep(c) => s.loop.Idle? && c in s.clients && s.clients[c].stage == Connecting
    case Hangup(c) => c in s.clients && s.clients[c].stage == Reading
    case UnregisterStep(c) => s.loop.Idle? && c in s.clients && s.clients[c].stage == Leaving
    case Consume(c) => c in s.clients && s.clients[c].send.buffer != []
    case StartKraam => s.loop.Idle? && s.kraamTokens > 0
    case StartPayments => s.loop.Idle? && s.paymentTokens > 0
    case StartMembers => s.loop.Idle? && s.memberTokens > 0
    case StartTosti => s.loop.Idle? && s.tostiNotices != []
    case StartProfile => s.loop.Idle? && s.profileNotices != []
    case SendOne(c) => s.loop.FanOut? && c in s.loop.todo && c in s.clients
    case EndFanOut => s.loop.FanOut? && s.loop.todo == {}
    case _ => true
  }

  function Do(s: State, a: Action): State
    requires Enabled(s, a)
  {
    match a
    case Connect(c, kind) => s.(clients := s.clients[c := Client(kind, Connecting, Chan([], false))])
    case RegisterStep(c) => SetStage(Register(s, c), c, Reading)
    case Hangup(c) => SetStage(s, c, Leaving)
    case UnregisterStep(c) => SetStage(Unregister(s, c), c, Gone)
    case Consume(c) =>
      var ch := s.clients[c].send;
      s.(clients := s.clients[c := s.clients[c].(send := ch.(buffer := ch.buffer[1..]))])
    case BroadcastKraam => s.(kraamTokens := AddToken(s.kraamTokens))
    case BroadcastPayments => s.(paymentTokens := AddToken(s.paymentTokens))
    case BroadcastMembers => s.(memberTokens := AddToken(s.memberTokens))
    case NotifyTosti(user) => s.(tostiNotices := AddNotice(s.tostiNotices, user))
    case NotifyProfile(user) => s.(profileNotices := AddNotice(s.profileNotices, user))
    case StartKraam
      => s.(kraamTokens := s.kraamTokens - 1, loop := FanOut(TostiQueue, s.kraam), started := s.started + 1)
    case StartPayments => s.(paymentTokens := s.paymentTokens - 1, loop := FanOut(PaymentRequests, s.kraam))
    case StartMembers => s.(memberTokens := s.memberTokens - 1, loop := FanOut(TostiPublicQueue, AllMembers(s.users)))
    case StartTosti => s.(tostiNotices := s.tostiNotices[1..], loop := Noticed(s, MyTostiOrders, s.tostiNotices[0]))
    case StartProfile
      => s.(profileNotices := s.profileNotices[1..], loop := Noticed(s, UserProfile, s.profileNotices[0]))
    case SendOne(c) => TrySend(s, c, s.loop.msg).(loop := s.loop.(todo := s.loop.todo - {c}))
    case EndFanOut => s.(loop := Idle)
  }

  // ----- What every step keeps -----

  predicate Registered(c: Client) { c.stage == Reading || c.stage == Leaving }

  predicate InUsers(users: map<int, set<nat>>, user: int, c: nat) { user in users && c in users[user] }

  predicate IsKraam(clients: map<nat, Client>,
      c: nat) { c in clients && clients[c].kind == Kraam && Registered(clients[c]) }

  predicate IsMember(clients: map<nat, Client>, user: int,
      c: nat) { c in clients && clients[c].kind == Member(user) && Registered(clients[c]) }

  /** The registries hold exactly the registered clients, under their own kind and user. */
  ghost predicate KraamFits(s: State) {
    forall c :: c in s.kraam <==> IsKraam(s.clients, c)
  }

  ghost predicate UsersFit(s: State) {
    && (forall u, c :: InUsers(s.users, u, c) <==> IsMember(s.clients, u, c))
    && (forall u :: u in s.users ==> s.users[u] != {})
  }

  /** Only a client that is done has a closed channel. */
  ghost predicate ChannelsFit(s: State) {
    forall c :: c in s.clients ==>
      (s.clients[c].send.closed <==> s.clients[c].stage == Gone) && |s.clients[c].send.buffer| <= CLIENT_SEND_BUF
  }

  ghost predicate FanOutFits(s: State) {
    s.loop.FanOut? ==> forall c :: c in s.loop.todo ==> c in s.clients && Registered(s.clients[c])
  }

  predicate QueuesFit(s: State) {
    && s.kraamTokens <= BROADCAST_BUF && s.paymentTokens <= BROADCAST_BUF && s.memberTokens <= BROADCAST_BUF
    && |s.tostiNotices| <= NOTIFY_BUF && |s.profileNotices| <= NOTIFY_BUF
    && 0 !in s.tostiNotices && 0 !in s.profileNotices
  }

  ghost predicate HubOk(s: State) {
    !s.panicked && KraamFits(s) && UsersFit(s) && ChannelsFit(s) && FanOutFits(s) && QueuesFit(s)
  }

  lemma UsersWithFits(users: map<int, set<nat>>, user: int, c: nat)
    ensures forall u, d :: InUsers(UsersWith(users, user, c), u, d) <==> InUsers(users, u, d) || (u == user && d == c)
    ensures (forall u :: u in users ==> users[u] != {}) ==> forall u :: u in UsersWith(users, user, c) ==>
      UsersWith(users, user, c)[u] != {}
  {
    assert c in UsersWith(users, user, c)[user];
  }

  lemma UsersWithoutFits(users: map<int, set<nat>>, user: int, c: nat)
    requires user in users
    ensures forall u, d :: InUsers(UsersWithout(users, user, c), u, d) <==>
      InUsers(users, u, d) && !(u == user && d == c)
    ensures (forall u :: u in users ==> users[u] != {}) ==> forall u :: u in UsersWithout(users, user, c) ==>
      UsersWithout(users, user, c)[u] != {}
  {
    forall u, d ensures InUsers(UsersWithout(users, user, c), u, d) <==>
      InUsers(users, u, d) && !(u == user && d == c) {
      if InUsers(users, u, d) && d != c { assert d in users[u] - {c}; }
    }
  }

  lemma RegisterKeeps(s: State, c: nat)
    requires HubOk(s) && Enabled(s, RegisterStep(c))
    ensures HubOk(Do(s, RegisterStep(c)))
  {
    hide UsersWith, InUsers;
    if s.clients[c].kind.Member? { UsersWithFits(s.users, s.clients[c].kind.user, c); }
    assert !IsKraam(s.clients, c);
  }

  lemma UnregisterKeeps(s: State, c: nat)
    requires HubOk(s) && Enabled(s, UnregisterStep(c))
    ensures HubOk(Do(s, UnregisterStep(c)))
    ensures Do(s, UnregisterStep(c)).clients[c].send.closed
  {
    if s.clients[c].kind.Member? {
      var user := s.clients[c].kind.user;
      assert IsMember(s.clients, user, c) && InUsers(s.users, user, c);
      UsersWithoutFits(s.users, user, c);
    } else {
      assert IsKraam(s.clients, c) && c in s.kraam;
    }
    hide UsersWithout, UsersWith;
  }

  /** A change to one client that keeps its kind and whether it is registered. */
  ghost predicate OneClient(s: State, after: State, c: nat) {
    && c in after.clients && after.clients == s.clients[c := after.clients[c]] && after.kraam == s.kraam
    && after.users == s.users
    && after.panicked == s.panicked && (c in s.clients || !Registered(after.clients[c]))
    && (c in s.clients ==>
          after.clients[c].kind == s.clients[c].kind && (Registered(after.clients[c]) <==> Registered(s.clients[c])))
    && (after.clients[c].send.closed <==> after.clients[c].stage == Gone)
    && |after.clients[c].send.buffer| <= CLIENT_SEND_BUF
    && QueuesFit(after)
  }

  lemma OneClientKeeps(s: State, after: State, c: nat)
    requires HubOk(s) && OneClient(s, after, c)
    requires after.loop == s.loop || (s.loop.FanOut? && after.loop.FanOut? && after.loop.todo <= s.loop.todo)
    ensures HubOk(after)
  {
    hide InUsers, QueuesFit;
    forall u, d ensures IsMember(after.clients, u, d) <==> IsMember(s.clients, u, d) {}
    forall d ensures IsKraam(after.clients, d) <==> IsKraam(s.clients, d) {}
  }

  lemma ClientKeeps(s: State, a: Action)
    requires HubOk(s) && Enabled(s, a) && (a.Connect? || a.Hangup? || a.Consume? || a.SendOne?)
    ensures HubOk(Do(s, a))
  {
    assert QueuesFit(s);
    if !a.Connect? { assert (s.clients[a.c].send.closed <==> s.clients[a.c].stage == Gone)
        && |s.clients[a.c].send.buffer| <= CLIENT_SEND_BUF; }
    if a.SendOne? { assert Registered(s.clients[a.c]); }
    hide HubOk, KraamFits, UsersFit, ChannelsFit, FanOutFits;
    var after := Do(s, a);
    assert after.clients == s.clients[a.c := after.clients[a.c]];
    OneClientKeeps(s, after, a.c);
  }

  lemma SignalKeeps(s: State, a: Action)
    requires HubOk(s) && Enabled(s, a)
    requires a.BroadcastKraam? || a.BroadcastPayments? || a.BroadcastMembers? || a.NotifyTosti? || a.NotifyProfile?
    ensures HubOk(Do(s, a))
  {}

  lemma StartKeeps(s: State, a: Action)
    requires HubOk(s) && Enabled(s, a)
    requires a.StartKraam? || a.StartPayments? || a.StartMembers? || a.StartTosti? || a.StartProfile? || a.EndFanOut?
    ensures HubOk(Do(s, a))
  {
    var after := Do(s, a);
    assert KraamFits(after) && UsersFit(after) && ChannelsFit(after) && QueuesFit(after);
    assert FanOutFits(after) by {
      forall c | after.loop.FanOut? && c in after.loop.todo ensures c in s.clients
          && Registered(s.clients[c]) { TargetRegistered(s, a, c); }
    }
    hide KraamFits, UsersFit, ChannelsFit, QueuesFit, FanOutFits;
  }

  lemma TargetRegistered(s: State, a: Action, c: nat)
    requires KraamFits(s) && UsersFit(s) && Enabled(s, a) && Do(s, a).loop.FanOut? && c in Do(s, a).loop.todo
    requires a.StartKraam? || a.StartPayments? || a.StartMembers? || a.StartTosti? || a.StartProfile?
    ensures c in s.clients && Registered(s.clients[c])
  {
    if c in s.kraam {
      assert IsKraam(s.clients, c);
    } else if a.StartMembers? {
      var u :| u in s.users && c in s.users[u];
      assert InUsers(s.users, u, c) && IsMember(s.clients, u, c);
    } else {
      var user := if a.StartTosti? then s.tostiNotices[0] else s.profileNotices[0];
      assert InUsers(s.users, user, c) && IsMember(s.clients, user, c);
    }
  }

  lemma StepKeeps(s: State, a: Action)
    requires HubOk(s) && Enabled(s, a)
    ensures HubOk(Do(s, a))
  {
    hide HubOk, Enabled, Do;
    match a
    case RegisterStep(c) => RegisterKeeps(s, c);
    case UnregisterStep(c) => UnregisterKeeps(s, c);
    case Connect(_, _) => ClientKeeps(s, a);
    case Hangup(_) => ClientKeeps(s, a);
    case Consume(_) => ClientKeeps(s, a);
    case SendOne(_) => ClientKeeps(s, a);
    case EndFanOut => StartKeeps(s, a);
    case BroadcastKraam => SignalKeeps(s, a);
    case BroadcastPayments => SignalKeeps(s, a);
    case BroadcastMembers => SignalKeeps(s, a);
    case NotifyTosti(_) => SignalKeeps(s, a);
    case NotifyProfile(_) => SignalKeeps(s, a);
    case _ => StartKeeps(s, a);
  }

  ghost predicate Trace(states: seq<State>, actions: seq<Action>) {
    && |states| == |actions| + 1
    && forall i :: 0 <= i < |actions| ==> Enabled(states[i], actions[i]) && states[i + 1] == Do(states[i], actions[i])
  }

  /** In every interleaving: no send on a closed channel, no channel closed twice, registered clients have open
      channels, and no user keeps an empty set of clients. */
  lemma {:induction false} NeverPanics(states: seq<State>, actions: seq<Action>, i: nat)
    requires Trace(states, actions) && states[0] == START && i < |states|
    ensures HubOk(states[i])
  {
    if i > 0 {
      NeverPanics(states, actions, i - 1);
      hide HubOk;
      StepKeeps(states[i - 1], actions[i - 1]);
    }
  }

  // ----- A broadcast is always followed by a fan-out -----

  /** A fan-out that begins after `started` others, or a token for one. */
  predicate FanOutAhead(s: State, started: nat) {
    s.kraamTokens > 0 || s.started > started
  }

  /** After a call to BroadcastKraam, whether or not its token was dropped, every later state still has a token waiting
      or has begun a fan-out that had not begun at the time of the call. */
  lemma {:induction false} BroadcastIsFollowed(states: seq<State>, actions: seq<Action>, call: nat, i: nat)
    requires Trace(states, actions) && call < |actions| && actions[call] == BroadcastKraam && call < i < |states|
    ensures FanOutAhead(states[i], states[call].started) && states[i].started >= states[call].started
  {
    hide Do, Enabled;
    CallLeavesToken(states[call]);
    if i > call + 1 {
      BroadcastIsFollowed(states, actions, call, i - 1);
      TokensLeaveByFanOut(states[i - 1], actions[i - 1]);
    }
  }

  lemma CallLeavesToken(s: State)
    ensures Do(s, BroadcastKraam).kraamTokens > 0 && Do(s, BroadcastKraam).started == s.started
  {}

  lemma TokensLeaveByFanOut(s: State, a: Action)
    requires Enabled(s, a)
    ensures Do(s, a).started >= s.started
    ensures Do(s, a).kraamTokens < s.kraamTokens ==> Do(s, a).started > s.started
  {}

  /** While the loop waits and a token is there, a fan-out to all registered kraam clients can begin. */
  lemma FanOutReachesAll(s: State)
    requires HubOk(s) && s.loop.Idle? && s.kraamTokens > 0
    ensures Enabled(s, StartKraam)
    ensures Do(s, StartKraam).loop.FanOut?
    ensures forall c :: IsKraam(s.clients, c) ==> c in Do(s, StartKraam).loop.todo
  {}

  /** The five fan-outs tell everyone concerned, nobody else, and each its own thing: the kraam of orders and payments,
      all members of the public queue, one user of orders or of a profile. */
  lemma FanOutTargets(s: State, a: Action)
    requires HubOk(s) && Enabled(s, a) && s.loop.Idle? && Do(s, a).loop.FanOut?
    ensures var msg, todo := Do(s, a).loop.msg, Do(s, a).loop.todo;
      || (((a == StartKraam && msg == TostiQueue) || (a == StartPayments && msg == PaymentRequests))
          && forall c :: c in todo <==> IsKraam(s.clients, c))
      || (a == StartMembers && msg == TostiPublicQueue
          && forall c :: c in todo <==> exists u :: IsMember(s.clients, u, c))
      || (a == StartTosti && msg == MyTostiOrders
          && forall c :: c in todo <==> IsMember(s.clients, s.tostiNotices[0], c))
      || (a == StartProfile && msg == UserProfile
          && forall c :: c in todo <==> IsMember(s.clients, s.profileNotices[0], c))
  {
    forall c ensures c in AllMembers(s.users) <==> exists u :: IsMember(s.clients, u, c) { MemberSomewhere(s, c); }
    forall u, c ensures c in MembersOf(s.users, u) <==> IsMember(s.clients, u, c) {
      assert InUsers(s.users, u, c) <==> IsMember(s.clients, u, c);
    }
    assert KraamFits(s);
    hide HubOk, IsMember, IsKraam, AllMembers, MembersOf;
  }

  lemma MemberSomewhere(s: State, c: nat)
    requires UsersFit(s)
    ensures c in AllMembers(s.users) <==> exists u :: IsMember(s.clients, u, c)
  {
    hide IsMember;
    if c in AllMembers(s.users) {
      var u :| u in s.users && c in s.users[u];
      assert InUsers(s.users, u, c);
    }
    if u :| IsMember(s.clients, u, c) {
      assert InUsers(s.users, u, c);
    }
  }

  /** A notice for a user joins the queue unless that is full; user 0 is nobody. A call for all leaves a token unless 64
      are waiting. */
  lemma CallsAreHeld(s: State, user: int)
    requires HubOk(s)
    ensures Do(s, NotifyTosti(user))
      == if user == 0 || |s.tostiNotices| == 256 then s else s.(tostiNotices := s.tostiNotices + [user])
    ensures Do(s, NotifyProfile(user))
      == if user == 0 || |s.profileNotices| == 256 then s else s.(profileNotices := s.profileNotices + [user])
    ensures Do(s, BroadcastKraam) == if s.kraamTokens == 64 then s else s.(kraamTokens := s.kraamTokens + 1)
    ensures Do(s, BroadcastPayments) == if s.paymentTokens == 64 then s else s.(paymentTokens := s.paymentTokens + 1)
    ensures Do(s, BroadcastMembers) == if s.memberTokens == 64 then s else s.(memberTokens := s.memberTokens + 1)
  {
    assert QueuesFit(s);
  }

  /** A client leaves the fan-out only by its send, after which the hint is in its buffer, or the buffer was full. */
  lemma HintArrives(s: State, a: Action, c: nat)
    requires HubOk(s) && Enabled(s, a) && s.loop.FanOut? && c in s.loop.todo
    requires !(Do(s, a).loop.FanOut? && c in Do(s, a).loop.todo)
    ensures a == SendOne(c) && Do(s, a).clients.Keys == s.clients.Keys
    ensures s.loop.msg in Do(s, a).clients[c].send.buffer || |s.clients[c].send.buffer| == CLIENT_SEND_BUF
  {
    if a == SendOne(c) && |s.clients[c].send.buffer| < CLIENT_SEND_BUF {
      var b := s.clients[c].send.buffer;
      assert (b + [s.loop.msg])[|b|] == s.loop.msg;
    }
  }

  // ----- The fan-out does begin -----

  /** The steps that the loop itself has left before it is back in its select. */
  function LoopWork(s: State): nat { if s.loop.Idle? then 0 else |s.loop.todo| + 1 }

  predicate IsFanOutStep(a: Action) { a.SendOne? || a.EndFanOut? }

  /** During a fan-out each step of the loop brings it closer to its select by one, and no other step moves it. */
  lemma WorkShrinks(s: State, a: Action)
    requires Enabled(s, a) && s.loop.FanOut?
    ensures LoopWork(Do(s, a)) == LoopWork(s) - (if IsFanOutStep(a) then 1 else 0)
    ensures Do(s, a).started == s.started && Do(s, a).kraamTokens >= s.kraamTokens
  {}

  /** During a fan-out the loop always has a step to take. */
  lemma LoopMoves(s: State) returns (a: Action)
    requires HubOk(s) && s.loop.FanOut?
    ensures IsFanOutStep(a) && Enabled(s, a)
  {
    if c :| c in s.loop.todo {
      a := SendOne(c);
    } else {
      a := EndFanOut;
    }
  }

  /** From every sound state with a token waiting, the loop's own steps finish the fan-out at hand and begin a new one
      to the kraam, in at most as many steps as there are clients left to serve, and two. */
  lemma {:induction false} FanOutBegins(s: State) returns (states: seq<State>, actions: seq<Action>)
    requires HubOk(s) && s.kraamTokens > 0
    ensures Trace(states, actions) && states[0] == s && |actions| == LoopWork(s) + 1
    ensures forall i :: 0 <= i < LoopWork(s) ==> IsFanOutStep(actions[i])
    ensures actions[LoopWork(s)] == StartKraam && states[LoopWork(s) + 1].started == s.started + 1
    decreases LoopWork(s)
  {
    if s.loop.Idle? {
      states, actions := [s, Do(s, StartKraam)], [StartKraam];
    } else {
      var a := LoopMoves(s);
      StepKeeps(s, a);
      WorkShrinks(s, a);
      hide HubOk, Do, Enabled, Trace;
      var laterStates, laterActions := FanOutBegins(Do(s, a));
      Prepend(s, a, laterStates, laterActions);
      states, actions := [s] + laterStates, [a] + laterActions;
    }
  }

  lemma Prepend(s: State, a: Action, states: seq<State>, actions: seq<Action>)
    requires Enabled(s, a) && Trace(states, actions) && states[0] == Do(s, a)
    ensures Trace([s] + states, [a] + actions)
  {
    hide Enabled, Do;
    forall i | 0 <= i < |actions| + 1
      ensures Enabled(([s] + states)[i], ([a] + actions)[i])
        && ([s] + states)[i + 1] == Do(([s] + states)[i], ([a] + actions)[i])
    {
      if i > 0 { assert states[i] == Do(states[i - 1], actions[i - 1]); }
    }
  }

  /** After a call, whatever happens: until a new fan-out begins, a token waits, so that the select can take it at each
      of its turns. */
  lemma ReadyUntilTaken(states: seq<State>, actions: seq<Action>, call: nat, i: nat)
    requires Trace(states, actions) && states[0] == START
    requires call < |actions| && actions[call] == BroadcastKraam && call < i < |states|
    ensures states[i].started > states[call].started || (states[i].loop.Idle? ==> Enabled(states[i], StartKraam))
    ensures states[i].started > states[call].started || exists more, steps :: LeadsToFanOut(states[i], more, steps)
  {
    BroadcastIsFollowed(states, actions, call, i);
    NeverPanics(states, actions, i);
    if states[i].started <= states[call].started {
      hide HubOk;
      var more, steps := FanOutBegins(states[i]);
      assert LeadsToFanOut(states[i], more, steps);
    }
  }

  /** Steps of the loop alone that begin a fan-out to the kraam. */
  ghost predicate LeadsToFanOut(s: State, states: seq<State>, actions: seq<Action>) {
    && Trace(states, actions) && states[0] == s && |actions| == LoopWork(s) + 1
    && actions[LoopWork(s)] == StartKraam && states[LoopWork(s) + 1].started == s.started + 1
    && forall i :: 0 <= i < LoopWork(s) ==> IsFanOutStep(actions[i])
  }

  // ----- Unending runs with a fair select -----

  ghost predicate StepAt(run: nat -> State, acts: nat -> Action, i: nat) {
    Enabled(run(i), acts(i)) && run(i + 1) == Do(run(i), acts(i))
  }

  ghost predicate Unending(run: nat -> State, acts: nat -> Action) { forall i: nat :: StepAt(run, acts, i) }

  predicate FanOutStepAt(acts: nat -> Action, i: nat) { IsFanOutStep(acts(i)) }

  predicate StartsAt(acts: nat -> Action, i: nat) { acts(i) == StartKraam }

  /** The loop is in its select with a kraam token waiting. */
  predicate ReadyAt(run: nat -> State, i: nat) { run(i).loop.Idle? && run(i).kraamTokens > 0 }

  ghost predicate ReadyLater(run: nat -> State, i: nat) { exists k: nat :: k >= i && ReadyAt(run, k) }

  /** The loop's goroutine is never left waiting for ever in the middle of a fan-out. */
  ghost predicate KeepsMoving(run: nat -> State, acts: nat -> Action) {
    forall i: nat :: run(i).loop.FanOut? ==> exists j: nat :: j >= i && FanOutStepAt(acts, j)
  }

  /** A select that finds the kraam token again and again takes it some time: it chooses at random among what is ready.
      */
  ghost predicate SelectIsFair(run: nat -> State, acts: nat -> Action) {
    forall i: nat :: ReadyForever(run, i) ==> StartsFrom(acts, i)
  }

  ghost predicate ReadyForever(run: nat -> State, i: nat) { forall j: nat :: j >= i ==> ReadyLater(run, j) }

  ghost predicate StartsFrom(acts: nat -> Action, i: nat) { exists m: nat :: m >= i && StartsAt(acts, m) }

  lemma {:induction false} TokenWaits(run: nat -> State, acts: nat -> Action, call: nat, i: nat)
    requires Unending(run, acts) && acts(call) == BroadcastKraam && call < i
    requires forall m: nat :: call < m < i ==> !StartsAt(acts, m)
    ensures run(i).kraamTokens > 0
    decreases i
  {
    hide Do, Enabled;
    assert StepAt(run, acts, i - 1);
    if i == call + 1 {
      CallLeavesToken(run(call));
    } else {
      TokenWaits(run, acts, call, i - 1);
      assert !StartsAt(acts, i - 1);
      OnlyFanOutTakes(run(i - 1), acts(i - 1));
    }
  }

  lemma OnlyFanOutTakes(s: State, a: Action)
    requires Enabled(s, a) && a != StartKraam
    ensures Do(s, a).kraamTokens >= s.kraamTokens
  {}

  /** The loop gets back to its select: `k` is a step of the loop that is still to come. */
  lemma {:induction false} BackInSelect(run: nat -> State, acts: nat -> Action, i: nat, k: nat) returns (back: nat)
    requires Unending(run, acts) && KeepsMoving(run, acts)
    requires run(i).loop.FanOut? ==> i <= k && FanOutStepAt(acts, k)
    ensures back >= i && run(back).loop.Idle?
    decreases LoopWork(run(i)), k - i
  {
    hide Do, Enabled;
    if run(i).loop.Idle? {
      back := i;
    } else {
      assert StepAt(run, acts, i);
      WorkShrinks(run(i), acts(i));
      if !IsFanOutStep(acts(i)) {
        back := BackInSelect(run, acts, i + 1, k);
      } else if run(i + 1).loop.Idle? {
        back := i + 1;
      } else {
        var next: nat :| next >= i + 1 && FanOutStepAt(acts, next);
        back := BackInSelect(run, acts, i + 1, next);
      }
    }
  }

  /** In every fair run a call to BroadcastKraam is followed by a fan-out that begins after it, even if its token was
      dropped. */
  lemma AlwaysFollowed(run: nat -> State, acts: nat -> Action, call: nat)
    requires Unending(run, acts) && KeepsMoving(run, acts) && SelectIsFair(run, acts) && acts(call) == BroadcastKraam
    ensures exists m: nat :: m > call && StartsAt(acts, m)
  {
    hide Unending, KeepsMoving;
    if forall m: nat :: m > call ==> !StartsAt(acts, m) {
      forall j: nat | j >= call + 1 ensures ReadyLater(run, j) {
        var k := StillToCome(run, acts, j);
        var back := BackInSelect(run, acts, j, k);
        TokenWaits(run, acts, call, back);
        assert ReadyAt(run, back);
      }
      assert ReadyForever(run, call + 1) && StartsFrom(acts, call + 1);
    }
  }

  lemma StillToCome(run: nat -> State, acts: nat -> Action, i: nat) returns (k: nat)
    requires KeepsMoving(run, acts)
    ensures run(i).loop.FanOut? ==> i <= k && FanOutStepAt(acts, k)
  {
    k := i;
    if run(i).loop.FanOut? {
      k :| k >= i && FanOutStepAt(acts, k);
    }
  }
}
