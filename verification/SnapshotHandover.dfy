// The WebSocket connection manager (backend/app/api/ws/manager.py): a client registers, gets a
// state snapshot, then every update broadcast since it registered. The locked sections and the
// single sends are the steps; they interleave in any way.
module SnapshotHandover {
  import opened Prelude

  type Socket = int

  datatype Message = Snapshot | Update(body: string)

  // Waiting: registered, snapshot not sent. Draining: snapshot sent, the batch taken from the held
  // updates still to be sent. Live: updates come straight from broadcasts.
  datatype Stage = Waiting | Draining(batch: seq<Message>) | Live

  // One broadcast call between its two locked sections: who still gets the message directly, and
  // whose send failed.
  datatype Flight = Flight(machineId: string, message: Message, todo: set<Socket>, dead: set<Socket>)

  // stages, received and home describe the clients (home: the machine they registered for). since
  // and gone are history: the messages broadcast since a client registered, and the clients that
  // disconnected or whose send failed.
  datatype State = State(
    connections: map<string, set<Socket>>, held: map<Socket, seq<Message>>, flights: seq<Flight>,
    stages: map<Socket, Stage>, received: map<Socket, seq<Message>>, home: map<Socket, string>,
    since: map<Socket, seq<Message>>, gone: set<Socket>)

  const EMPTY := State(map[], map[], [], map[], map[], map[], map[], {})

  datatype Step =
    | Connect(machineId: string, ws: Socket)
    | SendSnapshot(ws: Socket)
    | TakeHeld(ws: Socket)
    | SendHeld(ws: Socket)
    | StartBroadcast(machineId: string, body: string)
    | SendDirect(k: nat, ws: Socket, fails: bool)
    | EndBroadcast(k: nat)
    | Disconnect(ws: Socket)

  function Of(connections: map<string, set<Socket>>, m: string): set<Socket> {
    if m in connections then connections[m] else {}
  }

  function Added(logs: map<Socket, seq<Message>>, to: set<Socket>, message: Message): map<Socket, seq<Message>> {
    map ws | ws in logs :: if ws in to then logs[ws] + [message] else logs[ws]
  }

  lemma AddedToOneMore(logs: map<Socket, seq<Message>>, all: set<Socket>, todo: set<Socket>, ws: Socket, m: Message)
    requires ws in todo && todo <= all <= logs.Keys
    ensures ws in Added(logs, all - todo, m)
    ensures Added(logs, all - (todo - {ws}), m)
         == Added(logs, all - todo, m)[ws := Added(logs, all - todo, m)[ws] + [m]]
  {
  }

  // Only the sockets with a log of their own matter.
  lemma AddedToHolders(logs: map<Socket, seq<Message>>, all: set<Socket>, holders: set<Socket>, todo: set<Socket>,
                       m: Message)
    requires todo == {} && forall ws :: ws in logs ==> (ws in holders <==> ws in all)
    ensures Added(logs, holders - todo, m) == Added(logs, all, m)
  {
    var left, right := Added(logs, holders - todo, m), Added(logs, all, m);
    assert left.Keys == logs.Keys == right.Keys;
    assert forall ws :: ws in logs ==> left[ws] == right[ws];
  }

  predicate Enabled(s: State, e: Step) {
    match e
    case Connect(_, ws) => ws !in s.stages
    case SendSnapshot(ws) => ws in s.stages && ws in s.received && s.stages[ws].Waiting?
    case TakeHeld(ws) => ws in s.stages && s.stages[ws] == Draining([])
    case SendHeld(ws) => ws in s.stages && ws in s.received && s.stages[ws].Draining? && s.stages[ws].batch != []
    case StartBroadcast(_, _) => true
    case SendDirect(k, ws, _) => k < |s.flights| && ws in s.flights[k].todo && ws in s.received
    case EndBroadcast(k) => k < |s.flights| && s.flights[k].todo == {}
    case Disconnect(ws) => ws in s.home
  }

  function Next(s: State, e: Step): State
    requires Enabled(s, e)
  {
    match e
    case Connect(m, ws) =>
      s.(connections := s.connections[m := Of(s.connections, m) + {ws}], held := s.held[ws := []],
         stages := s.stages[ws := Waiting], received := s.received[ws := []],
         home := s.home[ws := m], since := s.since[ws := []])
    case SendSnapshot(ws) =>
      s.(received := s.received[ws := s.received[ws] + [Snapshot]], stages := s.stages[ws := Draining([])])
    case TakeHeld(ws) =>
      if ws !in s.held || s.held[ws] == [] then s.(held := s.held - {ws}, stages := s.stages[ws := Live])
      else s.(held := s.held[ws := []], stages := s.stages[ws := Draining(s.held[ws])])
    case SendHeld(ws) =>
      s.(received := s.received[ws := s.received[ws] + [s.stages[ws].batch[0]]],
         stages := s.stages[ws := Draining(s.stages[ws].batch[1..])])
    case StartBroadcast(m, body) =>
      var all, message := Of(s.connections, m), Update(body);
      s.(held := Added(s.held, all, message), since := Added(s.since, all, message),
         flights := s.flights + [Flight(m, message, all - s.held.Keys, {})])
    case SendDirect(k, ws, fails) =>
      var f := s.flights[k];
      if fails then
        s.(flights := s.flights[k := f.(todo := f.todo - {ws}, dead := f.dead + {ws})], gone := s.gone + {ws})
      else
        s.(flights := s.flights[k := f.(todo := f.todo - {ws})],
           received := s.received[ws := s.received[ws] + [f.message]])
    case EndBroadcast(k) =>
      var f := s.flights[k];
      s.(flights := s.flights[..k] + s.flights[k + 1..],
         connections := s.connections[f.machineId := Of(s.connections, f.machineId) - f.dead])
    case Disconnect(ws) =>
      var m := s.home[ws];
      s.(connections := s.connections[m := Of(s.connections, m) - {ws}], held := s.held - {ws}, gone := s.gone + {ws})
  }

  // Messages of broadcasts in flight that the client still gets, in the order they started.
  function Pending(flights: seq<Flight>, ws: Socket): seq<Message> {
    if flights == [] then []
    else Pending(flights[..|flights| - 1], ws)
         + if ws in flights[|flights| - 1].todo then [flights[|flights| - 1].message] else []
  }

  function HeldFor(held: map<Socket, seq<Message>>, ws: Socket): seq<Message> { if ws in held then held[ws] else [] }

  // What the client has or is about to get, in order.
  function Due(s: State, ws: Socket): seq<Message>
    requires ws in s.stages && ws in s.received
  {
    s.received[ws]
    + (match s.stages[ws]
       case Waiting => [Snapshot]
       case Draining(batch) => batch
       case Live => [])
    + HeldFor(s.held, ws) + Pending(s.flights, ws)
  }

  function Promised(s: State, ws: Socket): seq<Message>
    requires ws in s.since
  {
    [Snapshot] + s.since[ws]
  }

  // --- Bookkeeping ------------------------------------------------------------------

  ghost predicate SameClients(s: State) {
    s.stages.Keys == s.received.Keys == s.since.Keys == s.home.Keys && s.held.Keys <= s.stages.Keys
    && s.gone <= s.stages.Keys
  }

  // A connected client is connected to its machine, and is live exactly when nothing is held for it.
  ghost predicate Connected(s: State, ws: Socket)
    requires SameClients(s) && ws in s.stages
  {
    && (forall m :: ws in Of(s.connections, m) ==> m == s.home[ws] && (s.stages[ws].Live? <==> ws !in s.held))
    && (ws !in s.gone ==> ws in Of(s.connections, s.home[ws]))
    && (ws in s.held ==> ws !in s.gone && !s.stages[ws].Live?)
  }

  // A broadcast in flight only concerns live clients of its machine, and failures are remembered.
  ghost predicate FlightSane(s: State, f: Flight)
    requires SameClients(s)
  {
    && (forall ws :: ws in f.todo ==> ws in s.stages && s.home[ws] == f.machineId && s.stages[ws].Live?)
    && (forall ws :: ws in f.dead ==> ws in s.gone && s.home[ws] == f.machineId)
  }

  ghost predicate Sane(s: State) {
    && SameClients(s)
    && (forall m, ws :: ws in Of(s.connections, m) ==> ws in s.stages)
    && (forall ws :: ws in s.stages ==> Connected(s, ws))
    && (forall k :: 0 <= k < |s.flights| ==> FlightSane(s, s.flights[k]))
  }

  lemma ConnectionsAfter(s: State, e: Step, m: string, ws: Socket)
    requires Sane(s) && Enabled(s, e)
    ensures ws in Of(Next(s, e).connections, m) <==>
              match e
              case Connect(n, w) => ws in Of(s.connections, m) || (ws == w && m == n)
              case EndBroadcast(k) => ws in Of(s.connections, m)
                                      && !(m == s.flights[k].machineId && ws in s.flights[k].dead)
              case Disconnect(w) => ws in Of(s.connections, m) && !(m == s.home[w] && ws == w)
              case _ => ws in Of(s.connections, m)
  {
  }

  lemma TakingAfter(s: State, w: Socket, ws: Socket)
    requires SameClients(s) && Enabled(s, TakeHeld(w)) && ws in s.stages
    ensures var s' := Next(s, TakeHeld(w));
            var ends := w == ws && (ws !in s.held || s.held[ws] == []);
            && ws in s'.stages && s'.home == s.home && s'.gone == s.gone
            && (s'.stages[ws].Live? <==> s.stages[ws].Live? || ends) && (ws in s'.held <==> ws in s.held && !ends)
  {
  }

  // A client's stage, held updates and history after a step.
  lemma ClientAfter(s: State, e: Step, ws: Socket)
    requires SameClients(s) && Enabled(s, e) && ws in s.stages
    ensures var s' := Next(s, e);
            var ends := e == TakeHeld(ws) && (ws !in s.held || s.held[ws] == []);
            && ws in s'.stages && ws in s'.home && s'.home[ws] == s.home[ws]
            && (s'.stages[ws].Live? <==> s.stages[ws].Live? || ends)
            && (ws in s'.held <==> ws in s.held && !ends && e != Disconnect(ws))
            && (ws in s'.gone <==> ws in s.gone || e == Disconnect(ws) || (e.SendDirect? && e.ws == ws && e.fails))
  {
    match e
    case Connect(_, _) =>
    case SendSnapshot(_) =>
    case TakeHeld(w) => TakingAfter(s, w, ws);
    case SendHeld(_) =>
    case StartBroadcast(_, _) =>
    case SendDirect(_, _, _) =>
    case EndBroadcast(_) =>
    case Disconnect(_) =>
  }

  lemma ClientStaysConnected(s: State, e: Step, ws: Socket)
    requires Sane(s) && Enabled(s, e) && ws in s.stages && SameClients(Next(s, e))
    ensures Connected(Next(s, e), ws)
  {
    var s' := Next(s, e);
    assert Connected(s, ws);
    ClientAfter(s, e, ws);
    forall m | ws in Of(s'.connections, m) ensures m == s'.home[ws] && (s'.stages[ws].Live? <==> ws !in s'.held) {
      ConnectionsAfter(s, e, m, ws);
    }
    ConnectionsAfter(s, e, s.home[ws], ws);
    if e.EndBroadcast? { assert FlightSane(s, s.flights[e.k]); }
    if e.SendDirect? { assert FlightSane(s, s.flights[e.k]); }
  }

  lemma NewClientIsConnected(s: State, m: string, ws: Socket)
    requires Sane(s) && ws !in s.stages && SameClients(Next(s, Connect(m, ws)))
    ensures Connected(Next(s, Connect(m, ws)), ws)
  {
    var s' := Next(s, Connect(m, ws));
    forall n | ws in Of(s'.connections, n) ensures n == m {
      ConnectionsAfter(s, Connect(m, ws), n, ws);
    }
  }

  lemma OldFlightStaysSane(s: State, e: Step, f: Flight)
    requires Sane(s) && Enabled(s, e) && SameClients(Next(s, e)) && FlightSane(s, f)
    ensures FlightSane(Next(s, e), f)
  {
    var s' := Next(s, e);
    forall ws | ws in f.todo ensures ws in s'.stages && s'.home[ws] == f.machineId && s'.stages[ws].Live? {
      ClientAfter(s, e, ws);
    }
    forall ws | ws in f.dead ensures ws in s'.gone && s'.home[ws] == f.machineId { ClientAfter(s, e, ws); }
  }

  lemma NewFlightIsSane(s: State, m: string, body: string)
    requires Sane(s) && SameClients(Next(s, StartBroadcast(m, body)))
    ensures FlightSane(Next(s, StartBroadcast(m, body)), Next(s, StartBroadcast(m, body)).flights[|s.flights|])
  {
    forall ws | ws in Of(s.connections, m) - s.held.Keys
      ensures ws in s.stages && s.stages[ws].Live? && s.home[ws] == m
    {
      assert Connected(s, ws);
    }
  }

  lemma SentFlightIsSane(s: State, k: nat, ws: Socket, fails: bool)
    requires Sane(s) && Enabled(s, SendDirect(k, ws, fails)) && SameClients(Next(s, SendDirect(k, ws, fails)))
    ensures FlightSane(Next(s, SendDirect(k, ws, fails)), Next(s, SendDirect(k, ws, fails)).flights[k])
  {
    assert FlightSane(s, s.flights[k]);
  }

  lemma LaterFlightStaysSane(s: State, ended: nat, k: nat)
    requires Sane(s) && Enabled(s, EndBroadcast(ended)) && SameClients(Next(s, EndBroadcast(ended)))
    requires k < |Next(s, EndBroadcast(ended)).flights|
    ensures FlightSane(Next(s, EndBroadcast(ended)), Next(s, EndBroadcast(ended)).flights[k])
  {
    var f := if k < ended then s.flights[k] else s.flights[k + 1];
    assert Next(s, EndBroadcast(ended)).flights[k] == f;
    assert FlightSane(s, f);
    OldFlightStaysSane(s, EndBroadcast(ended), f);
  }

  lemma FlightsStaySane(s: State, e: Step, k: nat)
    requires Sane(s) && Enabled(s, e) && SameClients(Next(s, e)) && k < |Next(s, e).flights|
    ensures FlightSane(Next(s, e), Next(s, e).flights[k])
  {
    if e.EndBroadcast? {
      LaterFlightStaysSane(s, e.k, k);
    } else if e.StartBroadcast? && k == |s.flights| {
      NewFlightIsSane(s, e.machineId, e.body);
    } else if e.SendDirect? && k == e.k {
      SentFlightIsSane(s, e.k, e.ws, e.fails);
    } else {
      assert Next(s, e).flights[k] == s.flights[k];
      OldFlightStaysSane(s, e, s.flights[k]);
    }
  }

  lemma ClientsStaySame(s: State, e: Step)
    requires Sane(s) && Enabled(s, e)
    ensures SameClients(Next(s, e))
  {
    if e.SendDirect? { assert FlightSane(s, s.flights[e.k]); }
  }

  lemma StepIsSane(s: State, e: Step)
    requires Sane(s) && Enabled(s, e)
    ensures Sane(Next(s, e))
  {
    var s' := Next(s, e);
    ClientsStaySame(s, e);
    forall m, ws | ws in Of(s'.connections, m) ensures ws in s'.stages {
      ConnectionsAfter(s, e, m, ws);
    }
    forall ws | ws in s'.stages ensures Connected(s', ws) {
      if ws in s.stages { ClientStaysConnected(s, e, ws); } else { NewClientIsConnected(s, e.machineId, ws); }
    }
    forall k | 0 <= k < |s'.flights| ensures FlightSane(s', s'.flights[k]) {
      FlightsStaySane(s, e, k);
    }
  }

  // --- What each step does to what is due -------------------------------------------

  lemma {:induction false} NonePending(flights: seq<Flight>, ws: Socket)
    requires forall k :: 0 <= k < |flights| ==> ws !in flights[k].todo
    ensures Pending(flights, ws) == []
  {
    if flights != [] { NonePending(flights[..|flights| - 1], ws); }
  }

  lemma {:induction false} PendingOthers(a: seq<Flight>, b: seq<Flight>, ws: Socket)
    requires |a| == |b|
    requires forall k :: 0 <= k < |a| ==> (ws in a[k].todo <==> ws in b[k].todo) && a[k].message == b[k].message
    ensures Pending(a, ws) == Pending(b, ws)
  {
    if a != [] { PendingOthers(a[..|a| - 1], b[..|b| - 1], ws); }
  }

  function Share(f: Flight, ws: Socket): seq<Message> { if ws in f.todo then [f.message] else [] }

  lemma {:induction false} PendingAround(flights: seq<Flight>, k: nat, ws: Socket)
    requires k < |flights|
    ensures Pending(flights, ws) == Pending(flights[..k], ws) + Share(flights[k], ws) + Pending(flights[k + 1..], ws)
  {
    var n := |flights| - 1;
    if k == n {
      assert flights[k + 1..] == [];
    } else {
      PendingAround(flights[..n], k, ws);
      var rest := flights[k + 1..];
      assert flights[..n][..k] == flights[..k] && flights[..n][k + 1..] == rest[..|rest| - 1];
      assert rest[|rest| - 1] == flights[n];
    }
  }

  lemma PendingWithout(flights: seq<Flight>, k: nat, ws: Socket)
    requires k < |flights| && ws !in flights[k].todo
    ensures Pending(flights[..k] + flights[k + 1..], ws) == Pending(flights, ws)
  {
    PendingAround(flights, k, ws);
    PendingAppend(flights[..k], flights[k + 1..], ws);
  }

  lemma {:induction false} PendingAppend(a: seq<Flight>, b: seq<Flight>, ws: Socket)
    ensures Pending(a + b, ws) == Pending(a, ws) + Pending(b, ws)
  {
    if b == [] {
      assert a + b == a;
    } else {
      PendingAppend(a, b[..|b| - 1], ws);
      assert (a + b)[..|a + b| - 1] == a + b[..|b| - 1];
    }
  }

  // Sending the message of flight k takes it off what is pending.
  lemma PendingSent(flights: seq<Flight>, k: nat, f: Flight, ws: Socket)
    requires k < |flights| && ws in flights[k].todo && ws !in f.todo
    ensures multiset(Pending(flights, ws)) == multiset(Pending(flights[k := f], ws)) + multiset{flights[k].message}
  {
    var after := flights[k := f];
    PendingAround(flights, k, ws);
    PendingAround(after, k, ws);
    assert after[..k] == flights[..k] && after[k + 1..] == flights[k + 1..];
  }

  lemma OnlyPending(flights: seq<Flight>, k: nat, ws: Socket)
    requires k < |flights| && ws in flights[k].todo
    requires forall j :: 0 <= j < |flights| && j != k ==> ws !in flights[j].todo
    ensures Pending(flights, ws) == [flights[k].message]
  {
    PendingAround(flights, k, ws);
    NonePending(flights[..k], ws);
    NonePending(flights[k + 1..], ws);
  }

  lemma HeldMeansNonePending(s: State, ws: Socket)
    requires Sane(s) && ws in s.stages
    ensures ws in s.held || !s.stages[ws].Live? ==> Pending(s.flights, ws) == []
  {
    if ws in s.held || !s.stages[ws].Live? {
      assert Connected(s, ws);
      forall k | 0 <= k < |s.flights| ensures ws !in s.flights[k].todo {
        assert FlightSane(s, s.flights[k]);
      }
      NonePending(s.flights, ws);
    }
  }

  // The steps of one client's own hand-over keep what is due, and so does every step that does
  // not concern it.
  ghost predicate KeepsDue(s: State, e: Step, ws: Socket) {
    match e
    case Connect(_, _) => true
    case SendSnapshot(_) => true
    case TakeHeld(_) => true
    case SendHeld(_) => true
    case StartBroadcast(m, _) => ws !in Of(s.connections, m)
    case SendDirect(_, w, _) => w != ws
    case EndBroadcast(_) => true
    case Disconnect(w) => w != ws
  }

  lemma OwnStepKeepsDue(s: State, e: Step, ws: Socket)
    requires Sane(s) && Enabled(s, e) && ws in s.stages
    requires e == SendSnapshot(ws) || e == TakeHeld(ws) || e == SendHeld(ws)
    ensures ws in Next(s, e).stages && ws in Next(s, e).received && ws in Next(s, e).since
    ensures Due(Next(s, e), ws) == Due(s, ws) && Next(s, e).since[ws] == s.since[ws]
  {
    match e
    case SendHeld(_) =>
      var batch := s.stages[ws].batch;
      assert batch == [batch[0]] + batch[1..];
    case TakeHeld(_) => assert Next(s, e).flights == s.flights && Next(s, e).received == s.received;
    case SendSnapshot(_) => assert Next(s, e).flights == s.flights && Next(s, e).held == s.held;
  }

  lemma OtherStepKeepsPending(s: State, e: Step, ws: Socket)
    requires Sane(s) && Enabled(s, e) && KeepsDue(s, e, ws) && !e.StartBroadcast?
    ensures Pending(Next(s, e).flights, ws) == Pending(s.flights, ws)
  {
    if e.SendDirect? { PendingOthers(s.flights, Next(s, e).flights, ws); }
    if e.EndBroadcast? { PendingWithout(s.flights, e.k, ws); }
  }

  // Nothing of this client changes.
  lemma OtherStepKeepsClient(s: State, e: Step, ws: Socket)
    requires SameClients(s) && Enabled(s, e) && ws in s.stages && KeepsDue(s, e, ws)
    requires e != SendSnapshot(ws) && e != TakeHeld(ws) && e != SendHeld(ws) && !e.StartBroadcast?
    ensures var s' := Next(s, e);
            && ws in s'.stages && ws in s'.received && ws in s'.since && s'.since[ws] == s.since[ws]
            && s'.stages[ws] == s.stages[ws] && s'.received[ws] == s.received[ws]
            && HeldFor(s'.held, ws) == HeldFor(s.held, ws)
  {
    match e
    case Connect(_, _) =>
    case SendSnapshot(_) =>
    case TakeHeld(_) =>
    case SendHeld(_) =>
    case SendDirect(_, _, _) =>
    case EndBroadcast(_) =>
    case Disconnect(_) =>
  }

  lemma DueKept(s: State, e: Step, ws: Socket)
    requires Sane(s) && Enabled(s, e) && ws in s.stages && Sane(Next(s, e)) && KeepsDue(s, e, ws)
    ensures Due(Next(s, e), ws) == Due(s, ws) && Next(s, e).since[ws] == s.since[ws]
  {
    if e == SendSnapshot(ws) || e == TakeHeld(ws) || e == SendHeld(ws) {
      OwnStepKeepsDue(s, e, ws);
    } else if e.StartBroadcast? {
      BroadcastKeepsOthers(s, e.machineId, e.body, ws);
    } else {
      OtherStepKeepsClient(s, e, ws);
      OtherStepKeepsPending(s, e, ws);
    }
  }

  lemma BroadcastKeepsOthers(s: State, m: string, body: string, ws: Socket)
    requires Sane(s) && ws in s.stages && ws !in Of(s.connections, m)
    ensures var s' := Next(s, StartBroadcast(m, body));
            ws in s'.stages && ws in s'.received && Due(s', ws) == Due(s, ws) && s'.since[ws] == s.since[ws]
  {
    var s' := Next(s, StartBroadcast(m, body));
    assert s'.flights[..|s.flights|] == s.flights;
    assert Pending(s'.flights, ws) == Pending(s.flights, ws) + [];
  }

  // A broadcast adds its message at the end of what is due to every connected client.
  lemma BroadcastIsDue(s: State, m: string, body: string, ws: Socket)
    requires Sane(s) && ws in s.stages && ws in Of(s.connections, m)
    ensures var s' := Next(s, StartBroadcast(m, body));
            && ws in s'.stages && ws in s'.received && ws in s'.since
            && Due(s', ws) == Due(s, ws) + [Update(body)] && Promised(s', ws) == Promised(s, ws) + [Update(body)]
  {
    var s' := Next(s, StartBroadcast(m, body));
    assert Connected(s, ws);
    HeldMeansNonePending(s, ws);
    assert s'.flights[..|s.flights|] == s.flights;
  }

  lemma DirectIsDue(s: State, k: nat, ws: Socket, fails: bool)
    requires Sane(s) && Enabled(s, SendDirect(k, ws, fails))
    ensures ws in s.stages && s.stages[ws].Live? && ws !in s.held
    ensures var s' := Next(s, SendDirect(k, ws, fails));
            && Due(s, ws) == s.received[ws] + Pending(s.flights, ws)
            && Due(s', ws) == s'.received[ws] + Pending(s'.flights, ws)
  {
    assert FlightSane(s, s.flights[k]);
    assert Connected(s, ws);
  }

  lemma DisconnectCutsDue(s: State, ws: Socket)
    requires Sane(s) && Enabled(s, Disconnect(ws))
    ensures Due(Next(s, Disconnect(ws)), ws) <= Due(s, ws)
  {
    HeldMeansNonePending(s, ws);
  }

  // --- Each once, whatever interleaves ------------------------------------------------

  ghost predicate EachOnce(s: State, ws: Socket)
    requires ws in s.stages && ws in s.received && ws in s.since
  {
    && multiset(Due(s, ws)) <= multiset(Promised(s, ws))
    && (ws !in s.gone ==> multiset(Due(s, ws)) == multiset(Promised(s, ws)))
  }

  ghost predicate AllOnce(s: State) {
    Sane(s) && forall ws :: ws in s.stages ==> EachOnce(s, ws)
  }

  lemma DirectKeepsOnce(s: State, k: nat, ws: Socket, fails: bool)
    requires Sane(s) && Enabled(s, SendDirect(k, ws, fails)) && ws in s.stages && EachOnce(s, ws)
    ensures EachOnce(Next(s, SendDirect(k, ws, fails)), ws)
  {
    DirectIsDue(s, k, ws, fails);
    PendingSent(s.flights, k, Next(s, SendDirect(k, ws, fails)).flights[k], ws);
  }

  lemma StepKeepsEachOnce(s: State, e: Step, ws: Socket)
    requires AllOnce(s) && Enabled(s, e) && ws in s.stages && Sane(Next(s, e))
    ensures EachOnce(Next(s, e), ws)
  {
    assert EachOnce(s, ws);
    if KeepsDue(s, e, ws) {
      DueKept(s, e, ws);
      assert ws !in Next(s, e).gone ==> ws !in s.gone;
    } else if e.StartBroadcast? {
      BroadcastIsDue(s, e.machineId, e.body, ws);
    } else if e.SendDirect? {
      DirectKeepsOnce(s, e.k, ws, e.fails);
    } else {
      DisconnectCutsDue(s, ws);
      PrefixMultiset(Due(Next(s, e), ws), Due(s, ws));
    }
  }

  lemma PrefixMultiset(a: seq<Message>, b: seq<Message>)
    requires a <= b
    ensures multiset(a) <= multiset(b)
  {
    assert b == a + b[|a|..];
  }

  lemma NewClientIsOwedTheSnapshot(s: State, m: string, ws: Socket)
    requires Sane(s) && ws !in s.stages
    ensures var s' := Next(s, Connect(m, ws)); Due(s', ws) == [Snapshot] == Promised(s', ws)
  {
    forall k | 0 <= k < |s.flights| ensures ws !in s.flights[k].todo {
      assert FlightSane(s, s.flights[k]);
    }
    NonePending(s.flights, ws);
  }

  lemma StepKeepsAllOnce(s: State, e: Step)
    requires AllOnce(s) && Enabled(s, e)
    ensures AllOnce(Next(s, e))
  {
    StepIsSane(s, e);
    var s' := Next(s, e);
    forall ws | ws in s'.stages ensures EachOnce(s', ws) {
      if ws in s.stages { StepKeepsEachOnce(s, e, ws); } else { NewClientOnce(s, e, ws); }
    }
  }

  lemma NewClientOnce(s: State, e: Step, ws: Socket)
    requires Sane(s) && Enabled(s, e) && ws !in s.stages && ws in Next(s, e).stages && Sane(Next(s, e))
    ensures EachOnce(Next(s, e), ws)
  {
    assert e == Connect(e.machineId, ws);
    NewClientIsOwedTheSnapshot(s, e.machineId, ws);
  }

  // --- In order, while no client waits for two sends ----------------------------------

  // The broadcast still has to send to the client, or failed to and has not removed it yet.
  predicate Concerns(f: Flight, ws: Socket) { ws in f.todo || ws in f.dead }

  // A connected, live client of the machine is concerned by an unfinished broadcast.
  ghost predicate Contended(s: State, m: string) {
    exists ws, k :: ws in Of(s.connections, m) && ws !in s.held && 0 <= k < |s.flights| && Concerns(s.flights[k], ws)
  }

  ghost predicate Calm(s: State, e: Step) {
    e.StartBroadcast? ==> !Contended(s, e.machineId)
  }

  // Each client is concerned by at most one broadcast, in one way.
  ghost predicate OneFlightFor(flights: seq<Flight>) {
    && (forall ws, j, k :: 0 <= j < k < |flights| && Concerns(flights[j], ws) ==> !Concerns(flights[k], ws))
    && (forall k :: 0 <= k < |flights| ==> flights[k].todo !! flights[k].dead)
  }

  ghost predicate FailedIn(flights: seq<Flight>, ws: Socket) {
    exists k :: 0 <= k < |flights| && ws in flights[k].dead
  }

  // A client that is gone but still connected failed in a broadcast that has not ended.
  ghost predicate FailedInFlight(s: State, ws: Socket)
    requires ws in s.home
  {
    ws in s.gone && ws in Of(s.connections, s.home[ws]) ==> FailedIn(s.flights, ws)
  }

  ghost predicate InOrder(s: State, ws: Socket)
    requires ws in s.stages && ws in s.received && ws in s.since
  {
    && Due(s, ws) <= Promised(s, ws) && (ws !in s.gone ==> Due(s, ws) == Promised(s, ws))
    && (FailedIn(s.flights, ws) ==> |Due(s, ws)| < |Promised(s, ws)|)
  }

  ghost predicate AllInOrder(s: State) {
    && Sane(s) && OneFlightFor(s.flights)
    && forall ws :: ws in s.stages ==> InOrder(s, ws) && FailedInFlight(s, ws)
  }

  lemma NewFlightIsTheOnlyOne(s: State, m: string, body: string)
    requires OneFlightFor(s.flights) && !Contended(s, m)
    ensures OneFlightFor(Next(s, StartBroadcast(m, body)).flights)
  {
    var after := Next(s, StartBroadcast(m, body)).flights;
    forall ws, j, k | 0 <= j < k < |after| && Concerns(after[j], ws) ensures !Concerns(after[k], ws) {
      assert after[j] == s.flights[j];
    }
  }

  lemma SendingKeepsOneFlight(flights: seq<Flight>, k: nat, f: Flight)
    requires OneFlightFor(flights) && k < |flights| && f.todo !! f.dead
    requires forall ws :: Concerns(f, ws) ==> Concerns(flights[k], ws)
    ensures OneFlightFor(flights[k := f])
  {
    var after := flights[k := f];
    forall ws, i, j | 0 <= i < j < |after| && Concerns(after[i], ws) ensures !Concerns(after[j], ws) {
      assert Concerns(flights[i], ws);
    }
  }

  lemma EndingKeepsOneFlight(flights: seq<Flight>, ended: nat)
    requires OneFlightFor(flights) && ended < |flights|
    ensures OneFlightFor(flights[..ended] + flights[ended + 1..])
  {
    var rest := flights[..ended] + flights[ended + 1..];
    forall k | 0 <= k < |rest| ensures rest[k] == flights[if k < ended then k else k + 1] {}
  }

  lemma StepKeepsOneFlight(s: State, e: Step)
    requires OneFlightFor(s.flights) && Enabled(s, e) && Calm(s, e)
    ensures OneFlightFor(Next(s, e).flights)
  {
    if e.StartBroadcast? { NewFlightIsTheOnlyOne(s, e.machineId, e.body); }
    if e.SendDirect? { SendingKeepsOneFlight(s.flights, e.k, Next(s, e).flights[e.k]); }
    if e.EndBroadcast? { EndingKeepsOneFlight(s.flights, e.k); }
  }

  lemma FailedUpdate(flights: seq<Flight>, k: nat, f: Flight, ws: Socket)
    requires k < |flights| && FailedIn(flights[k := f], ws) && (ws in f.dead ==> ws in flights[k].dead)
    ensures FailedIn(flights, ws)
  {
    var j :| 0 <= j < |flights| && ws in flights[k := f][j].dead;
    assert ws in flights[j].dead;
  }

  lemma FailedWithout(flights: seq<Flight>, k: nat, ws: Socket)
    requires k < |flights| && FailedIn(flights[..k] + flights[k + 1..], ws)
    ensures FailedIn(flights, ws)
  {
    var rest := flights[..k] + flights[k + 1..];
    var j :| 0 <= j < |rest| && ws in rest[j].dead;
    assert ws in flights[if j < k then j else j + 1].dead;
  }

  lemma FailedAppend(flights: seq<Flight>, f: Flight, ws: Socket)
    requires FailedIn(flights + [f], ws) && ws !in f.dead
    ensures FailedIn(flights, ws)
  {
    var k :| 0 <= k < |flights| + 1 && ws in (flights + [f])[k].dead;
    assert (flights + [f])[k] == flights[k];
  }

  // The broadcasts after a step.
  function FlightsAfter(s: State, e: Step): seq<Flight>
    requires Enabled(s, e)
  {
    match e
    case StartBroadcast(m, body) => s.flights + [Flight(m, Update(body), Of(s.connections, m) - s.held.Keys, {})]
    case SendDirect(k, ws, fails) =>
      var f := s.flights[k];
      s.flights[k := Flight(f.machineId, f.message, f.todo - {ws}, if fails then f.dead + {ws} else f.dead)]
    case EndBroadcast(k) => s.flights[..k] + s.flights[k + 1..]
    case _ => s.flights
  }

  lemma StepMovesFlights(s: State, e: Step)
    requires Enabled(s, e)
    ensures Next(s, e).flights == FlightsAfter(s, e)
  {
  }

  lemma FailuresAfterMove(s: State, e: Step, ws: Socket)
    requires Enabled(s, e) && FailedIn(FlightsAfter(s, e), ws)
    ensures FailedIn(s.flights, ws) || (e.SendDirect? && e.fails && e.ws == ws)
  {
    match e
    case EndBroadcast(k) => FailedWithout(s.flights, k, ws);
    case SendDirect(k, w, fails) =>
      if !fails || w != ws { FailedUpdate(s.flights, k, FlightsAfter(s, e)[k], ws); }
    case StartBroadcast(_, _) => FailedAppend(s.flights, FlightsAfter(s, e)[|s.flights|], ws);
    case _ =>
  }

  // Only a failing send adds a failure.
  lemma FailuresAfter(s: State, e: Step, ws: Socket)
    requires Enabled(s, e) && FailedIn(Next(s, e).flights, ws)
    ensures FailedIn(s.flights, ws) || (e.SendDirect? && e.fails && e.ws == ws)
  {
    StepMovesFlights(s, e);
    FailuresAfterMove(s, e, ws);
  }

  lemma FailureMoves(s: State, e: Step, ws: Socket, k: nat)
    requires Enabled(s, e) && k < |s.flights| && ws in s.flights[k].dead && (e.EndBroadcast? ==> e.k != k)
    ensures FailedIn(FlightsAfter(s, e), ws)
  {
    var after := FlightsAfter(s, e);
    if e.EndBroadcast? {
      assert after[if k < e.k then k else k - 1] == s.flights[k];
    } else {
      assert ws in after[k].dead;
    }
  }

  // A flight that a failed client is remembered in outlives the client's connection.
  lemma DeadFlightStays(s: State, e: Step, ws: Socket, k: nat)
    requires Sane(s) && Enabled(s, e) && k < |s.flights| && ws in s.flights[k].dead && ws in s.stages
    requires ws in Of(Next(s, e).connections, s.home[ws])
    ensures FailedIn(Next(s, e).flights, ws)
  {
    assert FlightSane(s, s.flights[k]);
    ConnectionsAfter(s, e, s.home[ws], ws);
    StepMovesFlights(s, e);
    FailureMoves(s, e, ws, k);
  }

  lemma FailureStaysInFlight(s: State, e: Step, ws: Socket)
    requires Sane(s) && Enabled(s, e) && ws in s.stages && FailedInFlight(s, ws) && SameClients(Next(s, e))
    ensures FailedInFlight(Next(s, e), ws)
  {
    var s' := Next(s, e);
    if ws in s'.gone && ws in Of(s'.connections, s'.home[ws]) {
      ConnectionsAfter(s, e, s.home[ws], ws);
      if ws in s.gone {
        var k :| 0 <= k < |s.flights| && ws in s.flights[k].dead;
        DeadFlightStays(s, e, ws, k);
      } else {
        assert ws in s'.flights[e.k].dead;
      }
    }
  }

  lemma FailureContends(s: State, m: string, ws: Socket)
    requires Sane(s) && ws in s.stages && ws in Of(s.connections, m)
    ensures FailedIn(s.flights, ws) ==> Contended(s, m)
  {
    assert Connected(s, ws);
    forall k | 0 <= k < |s.flights| && ws in s.flights[k].dead ensures Concerns(s.flights[k], ws) && ws !in s.held {
      assert FlightSane(s, s.flights[k]);
    }
  }

  // A client that is connected when an uncontended broadcast starts is not gone, and missed nothing.
  lemma ConnectedAtStart(s: State, m: string, ws: Socket)
    requires Sane(s) && ws in s.stages && FailedInFlight(s, ws) && !Contended(s, m) && ws in Of(s.connections, m)
    ensures ws !in s.gone && !FailedIn(s.flights, ws)
  {
    assert Connected(s, ws);
    FailureContends(s, m, ws);
  }

  lemma DirectKeepsOrder(s: State, k: nat, ws: Socket, fails: bool)
    requires Sane(s) && OneFlightFor(s.flights) && Enabled(s, SendDirect(k, ws, fails)) && ws in s.stages
    requires InOrder(s, ws)
    ensures InOrder(Next(s, SendDirect(k, ws, fails)), ws)
  {
    DirectIsDue(s, k, ws, fails);
    var s' := Next(s, SendDirect(k, ws, fails));
    assert Concerns(s.flights[k], ws);
    forall j | 0 <= j < |s.flights| && j != k ensures !Concerns(s.flights[j], ws) {}
    OnlyPending(s.flights, k, ws);
    NonePending(s'.flights, ws);
    assert FailedIn(s'.flights, ws) ==> fails;
  }

  lemma StartKeepsOrder(s: State, m: string, body: string, ws: Socket)
    requires AllInOrder(s) && !Contended(s, m) && ws in s.stages && ws in Of(s.connections, m)
    requires Sane(Next(s, StartBroadcast(m, body)))
    ensures InOrder(Next(s, StartBroadcast(m, body)), ws)
  {
    assert InOrder(s, ws) && FailedInFlight(s, ws);
    ConnectedAtStart(s, m, ws);
    BroadcastIsDue(s, m, body, ws);
    if FailedIn(Next(s, StartBroadcast(m, body)).flights, ws) { FailuresAfter(s, StartBroadcast(m, body), ws); }
  }

  lemma StepKeepsInOrder(s: State, e: Step, ws: Socket)
    requires AllInOrder(s) && Enabled(s, e) && Calm(s, e) && ws in s.stages && Sane(Next(s, e))
    ensures InOrder(Next(s, e), ws)
  {
    assert InOrder(s, ws) && FailedInFlight(s, ws);
    if KeepsDue(s, e, ws) {
      DueKept(s, e, ws);
      assert ws !in Next(s, e).gone ==> ws !in s.gone;
      if FailedIn(Next(s, e).flights, ws) { FailuresAfter(s, e, ws); }
    } else if e.StartBroadcast? {
      StartKeepsOrder(s, e.machineId, e.body, ws);
    } else if e.SendDirect? {
      DirectKeepsOrder(s, e.k, ws, e.fails);
    } else {
      DisconnectCutsDue(s, ws);
      if FailedIn(Next(s, e).flights, ws) { FailuresAfter(s, e, ws); }
    }
  }

  lemma StepKeepsAllInOrder(s: State, e: Step)
    requires AllInOrder(s) && Enabled(s, e) && Calm(s, e)
    ensures AllInOrder(Next(s, e))
  {
    StepIsSane(s, e);
    StepKeepsOneFlight(s, e);
    var s' := Next(s, e);
    forall ws | ws in s'.stages ensures InOrder(s', ws) && FailedInFlight(s', ws) {
      if ws in s.stages {
        StepKeepsInOrder(s, e, ws);
        FailureStaysInFlight(s, e, ws);
      } else {
        NewClientIsOwedTheSnapshot(s, e.machineId, ws);
        NewClientMissedNothing(s, e.machineId, ws);
      }
    }
  }

  lemma NewClientMissedNothing(s: State, m: string, ws: Socket)
    requires Sane(s) && ws !in s.stages
    ensures !FailedIn(Next(s, Connect(m, ws)).flights, ws)
  {
    forall k | 0 <= k < |s.flights| ensures ws !in s.flights[k].dead {
      assert FlightSane(s, s.flights[k]);
    }
  }

  // --- Whole runs ---------------------------------------------------------------------

  // Steps that are not possible change nothing.
  function Take(s: State, e: Step): State { if Enabled(s, e) then Next(s, e) else s }

  function Execute(s: State, steps: seq<Step>): State
    decreases |steps|
  {
    if steps == [] then s else Execute(Take(s, steps[0]), steps[1..])
  }

  // Runs in which no broadcast starts while a client of its machine waits for another's send.
  ghost predicate CalmRun(s: State, steps: seq<Step>)
    decreases |steps|
  {
    steps == [] || (Calm(s, steps[0]) && CalmRun(Take(s, steps[0]), steps[1..]))
  }

  lemma {:induction false} RunKeepsAllOnce(s: State, steps: seq<Step>)
    requires AllOnce(s)
    ensures AllOnce(Execute(s, steps))
    decreases |steps|
  {
    if steps != [] {
      if Enabled(s, steps[0]) { StepKeepsAllOnce(s, steps[0]); }
      RunKeepsAllOnce(Take(s, steps[0]), steps[1..]);
    }
  }

  lemma {:induction false} RunKeepsOrder(s: State, steps: seq<Step>)
    requires AllInOrder(s) && CalmRun(s, steps)
    ensures AllInOrder(Execute(s, steps))
    decreases |steps|
  {
    if steps != [] {
      if Enabled(s, steps[0]) { StepKeepsAllInOrder(s, steps[0]); }
      RunKeepsOrder(Take(s, steps[0]), steps[1..]);
    }
  }

  // The client has got everything there is to get.
  predicate Settled(s: State, ws: Socket) {
    ws in s.stages && ws !in s.gone && s.stages[ws].Live? && Pending(s.flights, ws) == []
  }

  // For any interleaving, overlapping broadcasts included: no client gets the snapshot or an
  // update more than once, nor anything it was not promised; and a client that is live, still
  // there and has nothing in flight got the snapshot and every update since it registered.
  lemma EveryUpdateOnce(steps: seq<Step>, ws: Socket)
    requires ws in Execute(EMPTY, steps).stages
    ensures var s := Execute(EMPTY, steps);
            && ws in s.received && ws in s.since
            && multiset(s.received[ws]) <= multiset(Promised(s, ws))
            && (Settled(s, ws) ==> multiset(s.received[ws]) == multiset(Promised(s, ws)))
  {
    RunKeepsAllOnce(EMPTY, steps);
    GotIsDue(Execute(EMPTY, steps), ws);
    assert EachOnce(Execute(EMPTY, steps), ws);
  }

  // What a client got is the first part of what is due to it, and all of it once settled.
  lemma GotIsDue(s: State, ws: Socket)
    requires Sane(s) && ws in s.stages
    ensures s.received[ws] <= Due(s, ws) && multiset(s.received[ws]) <= multiset(Due(s, ws))
    ensures Settled(s, ws) ==> s.received[ws] == Due(s, ws)
  {
    assert Connected(s, ws);
    PrefixMultiset(s.received[ws], Due(s, ws));
  }

  // In a calm run what a client got is at every moment the snapshot followed by the first updates
  // since it registered, in order; all of them once settled.
  lemma SnapshotThenUpdatesInOrder(steps: seq<Step>, ws: Socket)
    requires CalmRun(EMPTY, steps) && ws in Execute(EMPTY, steps).stages
    ensures var s := Execute(EMPTY, steps);
            && ws in s.received && ws in s.since
            && s.received[ws] <= Promised(s, ws)
            && (Settled(s, ws) ==> s.received[ws] == Promised(s, ws))
  {
    RunKeepsOrder(EMPTY, steps);
    GotIsDue(Execute(EMPTY, steps), ws);
    assert InOrder(Execute(EMPTY, steps), ws);
  }

  // Some client got something else than a first part of what it was promised.
  ghost predicate Jumbled(s: State) {
    exists ws :: ws in s.received && ws in s.since && !(s.received[ws] <= Promised(s, ws))
  }

  ghost predicate JumblesBy(s: State, more: seq<Step>) {
    CalmRun(s, more) && Jumbled(Execute(s, more))
  }

  lemma OrderIsNotJumbled(s: State)
    requires AllInOrder(s)
    ensures !Jumbled(s)
  {
    forall ws | ws in s.received && ws in s.since ensures s.received[ws] <= Promised(s, ws) {
      assert InOrder(s, ws);
      GotIsDue(s, ws);
    }
  }

  // A client concerned by a broadcast has not got everything it was promised.
  lemma ConcernedIsBehind(s: State, ws: Socket, k: nat)
    requires AllInOrder(s) && k < |s.flights| && Concerns(s.flights[k], ws)
    ensures ws in s.stages && s.received[ws] <= Promised(s, ws) && |s.received[ws]| < |Promised(s, ws)|
  {
    assert FlightSane(s, s.flights[k]);
    assert InOrder(s, ws);
    GotIsDue(s, ws);
    if ws in s.flights[k].todo { PendingAround(s.flights, k, ws); }
  }

  // The new broadcast is sent to that client first.
  lemma Overtakes(s: State, m: string, ws: Socket, k: nat) returns (body: string)
    requires AllInOrder(s) && ws in Of(s.connections, m) && ws !in s.held
    requires k < |s.flights| && Concerns(s.flights[k], ws)
    ensures JumblesBy(Next(s, StartBroadcast(m, body)), [SendDirect(|s.flights|, ws, false)])
  {
    ConcernedIsBehind(s, ws, k);
    var n := |s.received[ws]|;
    body := if Promised(s, ws)[n] == Update("a") then "b" else "a";
    var t := Next(s, StartBroadcast(m, body));
    var e := SendDirect(|s.flights|, ws, false);
    assert t.received == s.received && ws in t.since && Promised(t, ws) == Promised(s, ws) + [Update(body)];
    var u := Next(t, e);
    assert u.received[ws][n] == Update(body) && Promised(u, ws)[n] == Promised(s, ws)[n];
    assert Jumbled(u);
    assert [e][1..] == [];
    assert Execute(t, [e]) == Execute(u, []);
  }

  // From every state of a calm run, starting a broadcast can lead to a client getting messages out
  // of order, with only calm steps to follow, exactly when a connected live client of the machine
  // still waits for the send of an unfinished broadcast, or failed in one and is not removed yet.
  lemma BroadcastJumblesExactly(steps: seq<Step>, m: string)
    requires CalmRun(EMPTY, steps)
    ensures var s := Execute(EMPTY, steps);
            (exists body, more :: JumblesBy(Next(s, StartBroadcast(m, body)), more)) <==> Contended(s, m)
  {
    var s := Execute(EMPTY, steps);
    RunKeepsOrder(EMPTY, steps);
    if Contended(s, m) {
      var ws, k :| ws in Of(s.connections, m) && ws !in s.held && 0 <= k < |s.flights| && Concerns(s.flights[k], ws);
      var body := Overtakes(s, m, ws, k);
    } else {
      forall body, more | CalmRun(Next(s, StartBroadcast(m, body)), more)
        ensures !JumblesBy(Next(s, StartBroadcast(m, body)), more)
      {
        StepKeepsAllInOrder(s, StartBroadcast(m, body));
        RunKeepsOrder(Next(s, StartBroadcast(m, body)), more);
        OrderIsNotJumbled(Execute(Next(s, StartBroadcast(m, body)), more));
      }
    }
  }

  // So wherever a machine has a live client, a broadcast and a second one started before the first
  // has sent to it can reach it in the wrong order.
  lemma OverlappingBroadcastsReorder(steps: seq<Step>, m: string, first: string, ws: Socket)
    requires CalmRun(EMPTY, steps)
    requires var s := Execute(EMPTY, steps); !Contended(s, m) && ws in Of(s.connections, m) && ws !in s.held
    ensures var s := Next(Execute(EMPTY, steps), StartBroadcast(m, first));
            exists second, more :: JumblesBy(Next(s, StartBroadcast(m, second)), more)
  {
    var s := Execute(EMPTY, steps);
    RunKeepsOrder(EMPTY, steps);
    StepKeepsAllInOrder(s, StartBroadcast(m, first));
    var t := Next(s, StartBroadcast(m, first));
    assert Concerns(t.flights[|s.flights|], ws);
    var second := Overtakes(t, m, ws, |s.flights|);
  }

  lemma {:induction false} ExecuteSnoc(s: State, steps: seq<Step>, e: Step)
    ensures Execute(s, steps + [e]) == Take(Execute(s, steps), e)
    decreases |steps|
  {
    if steps == [] {
      assert [] + [e] == [e] && [e][1..] == [];
    } else {
      assert (steps + [e])[1..] == steps[1..] + [e];
      ExecuteSnoc(Take(s, steps[0]), steps[1..], e);
    }
  }

  // What a broadcast of m that has sent to all of direct but todo has done so far.
  ghost predicate SentTo(s: State, t: State, m: string, body: string, direct: set<Socket>, todo: set<Socket>,
                         broken: set<Socket>) {
    && t.connections == s.connections
    && t.flights == s.flights + [Flight(m, Update(body), todo, (direct - todo) * broken)]
    && t.held == Next(s, StartBroadcast(m, body)).held && t.received.Keys == s.received.Keys
    && forall ws :: ws in s.received ==>
         t.received[ws] == s.received[ws] + if ws in direct - todo - broken then [Update(body)] else []
  }

  lemma BroadcastBegins(s: State, m: string, body: string, broken: set<Socket>)
    requires Sane(s)
    ensures var direct := Of(s.connections, m) - s.held.Keys;
            && direct <= s.received.Keys
            && SentTo(s, Execute(s, [StartBroadcast(m, body)]), m, body, direct, direct, broken)
  {
    var direct := Of(s.connections, m) - s.held.Keys;
    assert [StartBroadcast(m, body)][1..] == [] && (direct - direct) * broken == {};
    forall ws | ws in direct ensures ws in s.received { assert ws in s.stages; }
  }

  lemma SendContinues(s: State, steps: seq<Step>, m: string, body: string, direct: set<Socket>, todo: set<Socket>,
                      broken: set<Socket>, ws: Socket)
    requires SentTo(s, Execute(s, steps), m, body, direct, todo, broken) && ws in todo
             && todo <= direct <= s.received.Keys
    ensures SentTo(s, Execute(s, steps + [SendDirect(|s.flights|, ws, ws in broken)]), m, body, direct, todo - {ws},
                   broken)
  {
    var t, e := Execute(s, steps), SendDirect(|s.flights|, ws, ws in broken);
    ExecuteSnoc(s, steps, e);
    SendsOne(s, t, m, body, direct, todo, broken, ws);
  }

  lemma SendsOne(s: State, t: State, m: string, body: string, direct: set<Socket>, todo: set<Socket>,
                 broken: set<Socket>, ws: Socket)
    requires SentTo(s, t, m, body, direct, todo, broken) && ws in todo && todo <= direct <= s.received.Keys
    ensures Enabled(t, SendDirect(|s.flights|, ws, ws in broken))
    ensures SentTo(s, Next(t, SendDirect(|s.flights|, ws, ws in broken)), m, body, direct, todo - {ws}, broken)
  {
    var dead := (direct - todo) * broken;
    assert (direct - (todo - {ws})) * broken == if ws in broken then dead + {ws} else dead;
  }

  lemma BroadcastEnds(s: State, steps: seq<Step>, m: string, body: string, direct: set<Socket>, broken: set<Socket>)
    requires SentTo(s, Execute(s, steps), m, body, direct, {}, broken)
    ensures var t, u := Execute(s, steps), Execute(s, steps + [EndBroadcast(|s.flights|)]);
            && Enabled(t, EndBroadcast(|s.flights|)) && u == Next(t, EndBroadcast(|s.flights|))
            && t.flights[|s.flights|] == Flight(m, Update(body), {}, direct * broken) && u.flights == s.flights
            && u.held == t.held && u.received == t.received
            && u.connections == t.connections[m := Of(t.connections, m) - direct * broken]
  {
    var t := Execute(s, steps);
    ExecuteSnoc(s, steps, EndBroadcast(|s.flights|));
    assert t.flights[..|s.flights|] == s.flights && t.flights[|s.flights| + 1..] == [] && s.flights + [] == s.flights;
    assert (direct - {}) * broken == direct * broken;
  }

  // --- The object: its locked sections are the steps ----------------------------------

  class ConnectionManager {
    var connections: map<string, set<Socket>>
    var held: map<Socket, seq<Message>>

    ghost predicate Shows(s: State)
      reads this
    {
      connections == s.connections && held == s.held
    }

    constructor ()
      ensures Shows(EMPTY)
    {
      connections, held := map[], map[];
    }

    method ConnectClient(m: string, ws: Socket, ghost s: State)
      requires Shows(s) && Enabled(s, Connect(m, ws))
      modifies this
      ensures Shows(Next(s, Connect(m, ws)))
    {
      held := held[ws := []];
      connections := connections[m := Of(connections, m) + {ws}];
    }

    method DisconnectClient(m: string, ws: Socket, ghost s: State)
      requires Shows(s) && Enabled(s, Disconnect(ws)) && s.home[ws] == m
      modifies this
      ensures Shows(Next(s, Disconnect(ws)))
    {
      connections := connections[m := Of(connections, m) - {ws}];
      held := held - {ws};
    }

    // First locked section of broadcast: hold the message for waiting clients; the others get it
    // directly.
    method HoldForWaiting(m: string, body: string, ghost s: State) returns (direct: set<Socket>)
      requires Shows(s)
      modifies this`held
      ensures Shows(Next(s, StartBroadcast(m, body)))
      ensures direct == Next(s, StartBroadcast(m, body)).flights[|s.flights|].todo
    {
      var all := Of(connections, m);
      var waiting := set ws | ws in all && ws in held;
      var todo := waiting;
      while todo != {}
        invariant todo <= waiting && held == Added(s.held, waiting - todo, Update(body))
        decreases |todo|
      {
        SomeMember(todo);
        var ws :| ws in todo;
        AddedToOneMore(s.held, waiting, todo, ws, Update(body));
        held := held[ws := held[ws] + [Update(body)]];
        todo := todo - {ws};
      }
      AddedToHolders(s.held, all, waiting, todo, Update(body));
      direct := all - waiting;
      assert direct == all - s.held.Keys;
    }

    // Second locked section: forget the clients whose send failed.
    method RemoveDead(ghost k: nat, dead: set<Socket>, m: string, ghost s: State)
      requires Shows(s) && Enabled(s, EndBroadcast(k)) && dead == s.flights[k].dead && m == s.flights[k].machineId
      modifies this`connections
      ensures Shows(Next(s, EndBroadcast(k)))
    {
      connections := connections[m := Of(connections, m) - dead];
    }

    // The direct sends of a broadcast.
    method SendAll(m: string, body: string, direct: set<Socket>, broken: set<Socket>, ghost s: State,
                   ghost begun: seq<Step>)
      returns (dead: set<Socket>, ghost steps: seq<Step>)
      requires direct <= s.received.Keys && SentTo(s, Execute(s, begun), m, body, direct, direct, broken)
      ensures dead == direct * broken && SentTo(s, Execute(s, steps), m, body, direct, {}, broken)
    {
      var todo := direct;
      dead, steps := {}, begun;
      while todo != {}
        invariant todo <= direct && dead == (direct - todo) * broken
        invariant SentTo(s, Execute(s, steps), m, body, direct, todo, broken)
        decreases |todo|
      {
        SomeMember(todo);
        var ws :| ws in todo;
        SendContinues(s, steps, m, body, direct, todo, broken, ws);
        steps := steps + [SendDirect(|s.flights|, ws, ws in broken)];
        if ws in broken { dead := dead + {ws}; }
        todo := todo - {ws};
      }
    }

    // A whole broadcast with nothing in between; broken: clients whose send fails. Every live
    // client gets the message, or is forgotten.
    method Broadcast(m: string, body: string, broken: set<Socket>, ghost s: State)
      returns (direct: set<Socket>, ghost steps: seq<Step>)
      requires Shows(s) && Sane(s)
      modifies this
      ensures Shows(Execute(s, steps)) && direct == Of(s.connections, m) - s.held.Keys
      ensures Execute(s, steps).flights == s.flights && Execute(s, steps).received.Keys == s.received.Keys
      ensures forall ws :: ws in s.received ==>
                Execute(s, steps).received[ws] == s.received[ws] + if ws in direct - broken then [Update(body)] else []
      ensures Of(connections, m) == Of(old(connections), m) - direct * broken
    {
      direct := HoldForWaiting(m, body, s);
      BroadcastBegins(s, m, body, broken);
      var dead;
      dead, steps := SendAll(m, body, direct, broken, s, [StartBroadcast(m, body)]);
      BroadcastEnds(s, steps, m, body, direct, broken);
      RemoveDead(|s.flights|, dead, m, Execute(s, steps));
      steps := steps + [EndBroadcast(|s.flights|)];
    }

    // Locked section of the draining loop: None ends it.
    method TakeUpdates(ws: Socket, ghost s: State) returns (batch: Option<seq<Message>>)
      requires Shows(s) && Enabled(s, TakeHeld(ws))
      modifies this`held
      ensures Shows(Next(s, TakeHeld(ws)))
      ensures match batch
              case None => Next(s, TakeHeld(ws)).stages[ws].Live?
              case Some(b) => b != [] && Next(s, TakeHeld(ws)).stages[ws] == Draining(b)
    {
      if ws !in held || held[ws] == [] {
        held := held - {ws};
        return None;
      }
      batch := Some(held[ws]);
      held := held[ws := []];
    }
  }
}
