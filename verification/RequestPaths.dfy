/** The path of a request through the whole system. With fresh ids each id is in
    one place at a time and only moves forward, so a proxy's reader and an agent
    meet it at most once; what is proved of them under distinct ids then holds in
    every run of the system. */
module RequestPaths {
  import opened Tunnel
  import opened System
  import opened SystemRuns
  import opened Recovery
  import M = RouterMachine
  import C = Center
  import P = Proxy
  import A = Agent

  /** Where the one copy of a request is, or was when it was lost. */
  datatype Place = Wire(s: StreamId) | AtProxy(p: ProxyId) | AtAgent(a: AgentId)

  type Places = map<RequestId, Place>

  /** The step sends a request off: center's own, or the one a proxy's reader holds. */
  predicate Transmits(st: State, step: Step) {
    && step.CenterDoes? && step.cev.Step? && step.cev.step.Transmit? && step.cev.step.ok
    && M.In(st.center.router, step.cev.step.c, M.Opened)
  }

  predicate Forwards(st: State, step: Step) {
    && step.ProxyDoes? && step.p in st.proxies && step.pev == P.Forward(true)
    && st.proxies[step.p].reader.Forwarding? && st.proxies[step.p].reader.req.ToolRequest?
  }

  /** Reading a request off a stream takes it to the reader. */
  function Fetched(st: State, places: Places, ev: Event): Places {
    if ReadsDown(st, ev) && st.queues[ev.s].down[0].ToolRequest? then
      places[st.queues[ev.s].down[0].requestId := if ev.ProxyHears? then AtProxy(ev.p) else AtAgent(ev.a)]
    else places
  }

  /** Sending it off takes it to the stream. */
  function Shipped(st: State, places: Places, step: Step): Places {
    if Transmits(st, step) then
      var call := st.center.router.calls[step.cev.step.c];
      places[call.id := Wire(call.route)]
    else if Forwards(st, step) then
      var reader := st.proxies[step.p].reader;
      places[reader.req.requestId := Wire(reader.route)]
    else places
  }

  /** How an event moves requests. */
  function Moved(st: State, places: Places, ev: Event): Places {
    Shipped(Taken(st, ev), Fetched(st, places, ev), StepOf(st, ev))
  }

  // --- each copy is where the places say ---

  /** No two requests of one id in a queue. */
  predicate NoneTwice(q: seq<Message>) {
    forall i, j :: 0 <= i < j < |q| && q[i].ToolRequest? && q[j].ToolRequest? ==> q[i].requestId != q[j].requestId
  }

  predicate QueuePlaced(places: Places, s: StreamId, q: seq<Message>) {
    && NoneTwice(q)
    && forall i :: 0 <= i < |q| && q[i].ToolRequest? ==> q[i].requestId in places && places[q[i].requestId] == Wire(s)
  }

  ghost predicate QueuesPlaced(places: Places, qs: map<StreamId, Queue>) {
    forall s :: s in qs ==> QueuePlaced(places, s, qs[s].down)
  }

  predicate ReaderPlaced(places: Places, p: ProxyId, reader: P.Reader) {
    reader.Tracking? || reader.Forwarding? ==>
      reader.req.ToolRequest? && reader.req.requestId in places && places[reader.req.requestId] == AtProxy(p)
  }

  predicate TasksPlaced(places: Places, a: AgentId, tasks: map<A.RunId, A.Task>) {
    forall r :: r in tasks ==> tasks[r].id in places && places[tasks[r].id] == AtAgent(a)
  }

  predicate CallsPlaced(places: Places, r: M.State) {
    forall c :: c in r.calls && (r.calls[c].phase.LookedUp? || r.calls[c].phase.Opened?) ==> r.calls[c].id !in places
  }

  /** The streams of a proxy's handlers and of what its reader holds end at it. */
  predicate ProxyStreams(w: World, p: ProxyId, st: P.State) {
    && (forall s :: s in st.handlers ==> s in w.links && w.links[s].server == ProxyNode(p))
    && (st.reader.Tracking? || st.reader.Forwarding? ==>
          st.reader.route in w.links && w.links[st.reader.route].server == ProxyNode(p))
  }

  ghost predicate Placed(st: State, places: Places) {
    && QueuesPlaced(places, st.queues)
    && (forall p :: p in st.proxies ==>
          ReaderPlaced(places, p, st.proxies[p].reader) && ProxyStreams(st.world, p, st.proxies[p]))
    && (forall a :: a in st.agents ==> TasksPlaced(places, a, st.agents[a].tasks))
    && CallsPlaced(places, st.center.router)
    && (forall i :: i in places ==> i in st.world.issued)
  }

  // --- queues ---

  lemma PushPlaced(places: Places, s: StreamId, q: seq<Message>, m: Message)
    requires QueuePlaced(places, s, q)
    requires m.ToolRequest? ==>
      m.requestId in places && places[m.requestId] == Wire(s) && forall i :: 0 <= i < |q| && q[i].ToolRequest? ==>
        q[i].requestId != m.requestId
    ensures QueuePlaced(places, s, q + [m])
  {
  }

  lemma PopPlaced(places: Places, s: StreamId, q: seq<Message>)
    requires QueuePlaced(places, s, q) && q != []
    ensures QueuePlaced(places, s, q[1..])
    ensures q[0].ToolRequest? ==>
      forall i :: 0 <= i < |q[1..]| && q[1..][i].ToolRequest? ==> q[1..][i].requestId != q[0].requestId
  {
  }

  /** A queue without the id does not mind where the id goes. */
  lemma OtherIdPlaced(places: Places, s: StreamId, q: seq<Message>, id: RequestId, to: Place)
    requires QueuePlaced(places, s, q) && forall i :: 0 <= i < |q| && q[i].ToolRequest? ==> q[i].requestId != id
    ensures QueuePlaced(places[id := to], s, q)
  {
  }

  ghost predicate Absent(qs: map<StreamId, Queue>, id: RequestId) {
    forall s, i :: s in qs && 0 <= i < |qs[s].down| && qs[s].down[i].ToolRequest? ==> qs[s].down[i].requestId != id
  }

  lemma NotOnWire(places: Places, qs: map<StreamId, Queue>, id: RequestId)
    requires QueuesPlaced(places, qs) && (id in places ==> !places[id].Wire?)
    ensures Absent(qs, id)
  {
    forall s, i | s in qs && 0 <= i < |qs[s].down| && qs[s].down[i].ToolRequest? ensures qs[s].down[i].requestId != id {
      assert QueuePlaced(places, s, qs[s].down);
    }
  }

  lemma MovePlaced(places: Places, qs: map<StreamId, Queue>, id: RequestId, to: Place)
    requires QueuesPlaced(places, qs) && Absent(qs, id)
    ensures QueuesPlaced(places[id := to], qs)
  {
    forall s | s in qs ensures QueuePlaced(places[id := to], s, qs[s].down) {
      OtherIdPlaced(places, s, qs[s].down, id, to);
    }
  }

  lemma PopDownPlaced(places: Places, qs: map<StreamId, Queue>, s: StreamId)
    requires QueuesPlaced(places, qs) && s in qs && qs[s].down != []
    ensures QueuesPlaced(places, PopDown(qs, s))
    ensures qs[s].down[0].ToolRequest? ==> Absent(PopDown(qs, s), qs[s].down[0].requestId)
  {
    var next := PopDown(qs, s);
    PopPlaced(places, s, qs[s].down);
    forall t | t in next ensures QueuePlaced(places, t, next[t].down) {
      assert QueuePlaced(places, t, qs[t].down);
    }
    if qs[s].down[0].ToolRequest? {
      var id := qs[s].down[0].requestId;
      assert QueuePlaced(places, s, qs[s].down) && places[id] == Wire(s);
      forall t, i | t in next && 0 <= i < |next[t].down|
        && next[t].down[i].ToolRequest? ensures next[t].down[i].requestId != id {
        assert QueuePlaced(places, t, next[t].down);
      }
    }
  }

  lemma PushQuiet(places: Places, qs: map<StreamId, Queue>, s: StreamId, m: Message)
    requires QueuesPlaced(places, qs) && !m.ToolRequest?
    ensures QueuesPlaced(places, PushDown(qs, s, m))
  {
    var next := PushDown(qs, s, m);
    forall t | t in next ensures QueuePlaced(places, t, next[t].down) {
      assert QueuePlaced(places, t, qs[t].down);
      if t == s { PushPlaced(places, s, qs[s].down, m); }
    }
  }

  lemma PushRequest(places: Places, qs: map<StreamId, Queue>, s: StreamId, m: Message)
    requires QueuesPlaced(places, qs) && m.ToolRequest? && Absent(qs, m.requestId)
    ensures QueuesPlaced(places[m.requestId := Wire(s)], PushDown(qs, s, m))
  {
    var next, moved := PushDown(qs, s, m), places[m.requestId := Wire(s)];
    MovePlaced(places, qs, m.requestId, Wire(s));
    forall t | t in next ensures QueuePlaced(moved, t, next[t].down) {
      assert QueuePlaced(moved, t, qs[t].down);
      if t == s { PushPlaced(moved, s, qs[s].down, m); }
    }
  }

  /** The same downward queues. */
  predicate SameDowns(a: map<StreamId, Queue>, b: map<StreamId, Queue>) {
    a.Keys == b.Keys && forall s :: s in a ==> a[s].down == b[s].down
  }

  lemma SameDownsPlaced(places: Places, a: map<StreamId, Queue>, b: map<StreamId, Queue>)
    requires QueuesPlaced(places, a) && SameDowns(a, b)
    ensures QueuesPlaced(places, b)
  {
    forall s | s in b ensures QueuePlaced(places, s, b[s].down) {
      assert QueuePlaced(places, s, a[s].down);
    }
  }

  lemma SendPlaced(places: Places, st: State, node: Node, m: Message)
    requires QueuesPlaced(places, st.queues)
    ensures QueuesPlaced(places, Send(st, node, m).queues)
  {
    SameDownsPlaced(places, st.queues, Send(st, node, m).queues);
  }

  lemma {:induction false} PostCenterPlaced(places: Places, st: State, outs: seq<C.Output>)
    requires QueuesPlaced(places, st.queues) && forall o :: o in outs ==> !o.msg.ToolRequest?
    ensures QueuesPlaced(places, PostCenter(st, outs).queues)
    decreases |outs|
  {
    if outs != [] {
      assert outs[0] in outs;
      PushQuiet(places, st.queues, outs[0].s, outs[0].msg);
      PostCenterPlaced(places, st.(queues := PushDown(st.queues, outs[0].s, outs[0].msg)), outs[1..]);
    }
  }

  predicate AsksNothing(outs: seq<P.Output>) {
    forall o :: o in outs && o.Down? ==> !o.msg.ToolRequest?
  }

  lemma {:induction false} PostProxyPlaced(places: Places, st: State, p: ProxyId, outs: seq<P.Output>)
    requires QueuesPlaced(places, st.queues) && AsksNothing(outs)
    ensures QueuesPlaced(places, PostProxy(st, p, outs).queues)
    decreases |outs|
  {
    if outs != [] {
      assert outs[0] in outs;
      if outs[0].Up? {
        SendPlaced(places, st, ProxyNode(p), outs[0].msg);
      } else {
        PushQuiet(places, st.queues, outs[0].s, outs[0].msg);
      }
      PostProxyPlaced(places, PostedOne(st, p, outs[0]), p, outs[1..]);
    }
  }

  lemma {:induction false} PostAgentPlaced(places: Places, st: State, a: AgentId, outs: seq<Message>)
    requires QueuesPlaced(places, st.queues)
    ensures QueuesPlaced(places, PostAgent(st, a, outs).queues)
    decreases |outs|
  {
    if outs != [] {
      SendPlaced(places, st, AgentNode(a), outs[0]);
      PostAgentPlaced(places, Send(st, AgentNode(a), outs[0]), a, outs[1..]);
    }
  }

  // --- the other holders of ids ---

  lemma TasksStay(places: Places, id: RequestId, to: Place, a: AgentId, tasks: map<A.RunId, A.Task>)
    requires TasksPlaced(places, a, tasks) && (id in places ==> !places[id].AtAgent?)
    ensures TasksPlaced(places[id := to], a, tasks)
  {
  }

  lemma ReaderStays(places: Places, id: RequestId, to: Place, p: ProxyId, reader: P.Reader)
    requires ReaderPlaced(places, p, reader) && (id in places ==> places[id] != AtProxy(p))
    ensures ReaderPlaced(places[id := to], p, reader)
  {
  }

  /** A request that goes from one place to another leaves all who hold others alone. */
  lemma OthersStay(st: State, places: Places, id: RequestId, to: Place)
    requires Placed(st, places) && (id in places ==> !places[id].AtAgent?)
    ensures forall a :: a in st.agents ==> TasksPlaced(places[id := to], a, st.agents[a].tasks)
    ensures forall p :: p in st.proxies && (id in places ==> places[id] != AtProxy(p)) ==>
      ReaderPlaced(places[id := to], p, st.proxies[p].reader)
    ensures id in places ==> CallsPlaced(places[id := to], st.center.router)
  {
    forall a | a in st.agents ensures TasksPlaced(places[id := to], a, st.agents[a].tasks) {
      TasksStay(places, id, to, a, st.agents[a].tasks);
    }
    forall p | p in st.proxies && (id in places ==> places[id] != AtProxy(p))
      ensures ReaderPlaced(places[id := to], p, st.proxies[p].reader)
    {
      ReaderStays(places, id, to, p, st.proxies[p].reader);
    }
  }

  // --- steps of center ---

  lemma CenterAsks(st: State, cev: C.Event)
    requires !Transmits(st, CenterDoes(cev))
    ensures forall o :: o in C.Outputs(st.center, cev) ==> !o.msg.ToolRequest?
  {
  }

  lemma TransmitCalls(places: Places, r: M.State, c: M.CallId, to: Place)
    requires CallsPlaced(places, r) && M.In(r, c, M.Opened)
    requires forall d :: d in r.calls && d != c ==> r.calls[d].id != r.calls[c].id
    ensures CallsPlaced(places[r.calls[c].id := to], M.Apply(r, M.Transmit(c, true)))
  {
  }

  /** A call that the step begins has an id of its own. */
  predicate BeginsUnplaced(places: Places, r: M.State, es: seq<M.Event>) {
    forall e :: e in es && e.Start? && e.c !in r.calls ==> e.id !in places
  }

  lemma QuietCalls(places: Places, c: C.State, cev: C.Event)
    requires CallsPlaced(places, c.router) && BeginsUnplaced(places, c.router, C.RouterPart(c, cev))
    ensures CallsPlaced(places, C.Apply(c, cev).router)
  {
    var part := C.RouterPart(c, cev);
    C.RouterPartStep(c, cev);
    if part != [] {
      assert part[0] in part && part[1..] == [];
    }
  }

  lemma TransmitQueues(st: State, places: Places, cev: C.Event)
    requires Placed(st, places) && Transmits(st, CenterDoes(cev))
    ensures QueuesPlaced(Shipped(st, places, CenterDoes(cev)), StepCenter(st, cev).queues)
  {
    var call := st.center.router.calls[cev.step.c];
    var m := ToolRequest(call.id, call.tool, call.args, call.host);
    NotOnWire(places, st.queues, call.id);
    PushRequest(places, st.queues, call.route, m);
    var next := st.(center := C.Apply(st.center, cev));
    assert C.Outputs(st.center, cev) == [C.Down(call.route, m)];
    assert PostCenter(next, [C.Down(call.route, m)]) == next.(queues := PushDown(next.queues, call.route, m));
  }

  lemma CenterPlaced(st: State, places: Places, cev: C.Event)
    requires Placed(st, places) && IdsOk(st)
    requires BeginsUnplaced(places, st.center.router, C.RouterPart(st.center, cev))
    ensures Placed(StepCenter(st, cev), Shipped(st, places, CenterDoes(cev)))
  {
    ActedIs(st, CenterDoes(cev));
    if Transmits(st, CenterDoes(cev)) {
      var call := st.center.router.calls[cev.step.c];
      TransmitQueues(st, places, cev);
      OthersStay(st, places, call.id, Wire(call.route));
      TransmitCalls(places, st.center.router, cev.step.c, Wire(call.route));
    } else {
      CenterAsks(st, cev);
      PostCenterPlaced(places, st.(center := C.Apply(st.center, cev)), C.Outputs(st.center, cev));
      QuietCalls(places, st.center, cev);
    }
  }

  // --- steps of proxies ---

  lemma ProxyAsks(pst: P.State, pev: P.Event)
    requires !(pev == P.Forward(true) && pst.reader.Forwarding? && pst.reader.req.ToolRequest?)
    ensures AsksNothing(P.Outputs(pst, pev))
  {
  }

  lemma ReaderStep(places: Places, p: ProxyId, pst: P.State, pev: P.Event)
    requires ReaderPlaced(places, p, pst.reader)
    requires pev.Request? && pev.req.ToolRequest? ==>
      pev.req.requestId in places && places[pev.req.requestId] == AtProxy(p)
    ensures ReaderPlaced(places, p, P.Apply(pst, pev).reader)
  {
  }

  lemma StreamsStep(w: World, p: ProxyId, pst: P.State, pev: P.Event)
    requires ProxyStreams(w, p, pst) && P.RoutesLive(pst)
    requires pev.Accept? ==> pev.s in w.links && w.links[pev.s].server == ProxyNode(p)
    ensures ProxyStreams(w, p, P.Apply(pst, pev))
  {
  }

  lemma ForwardPlaced(st: State, places: Places, p: ProxyId)
    requires Placed(st, places) && Forwards(st, ProxyDoes(p, P.Forward(true)))
    ensures var step := ProxyDoes(p, P.Forward(true)); Placed(Acted(st, step), Shipped(st, places, step))
  {
    var pst := st.proxies[p];
    var m, route := pst.reader.req, pst.reader.route;
    var next := st.(proxies := st.proxies[p := P.Apply(pst, P.Forward(true))]);
    NotOnWire(places, st.queues, m.requestId);
    PushRequest(places, st.queues, route, m);
    OthersStay(st, places, m.requestId, Wire(route));
    assert P.Outputs(pst, P.Forward(true)) == [P.Down(route, m)];
    assert PostProxy(next, p, [P.Down(route, m)]) == next.(queues := PushDown(next.queues, route, m));
  }

  /** A step of proxy `p` out of a state in which the places already say what the
      step asks for. */
  lemma ProxyPlaced(st: State, places: Places, p: ProxyId, pev: P.Event)
    requires Placed(st, places) && p in st.proxies && P.RoutesLive(st.proxies[p])
    requires !Forwards(st, ProxyDoes(p, pev)) && ProxyGiven(st.world, places, p, pev)
    ensures Placed(StepProxy(st, p, pev), places)
  {
    var pst := st.proxies[p];
    var next := st.(proxies := st.proxies[p := P.Apply(pst, pev)]);
    ProxyAsks(pst, pev);
    ReaderStep(places, p, pst, pev);
    StreamsStep(st.world, p, pst, pev);
    PostProxyPlaced(places, next, p, P.Outputs(pst, pev));
    PostProxyOnlyQueues(next, p, P.Outputs(pst, pev));
  }

  // --- steps of agents ---

  lemma AgentPlaced(st: State, places: Places, a: AgentId, aev: A.Event)
    requires Placed(st, places) && a in st.agents && AgentGiven(places, a, aev)
    ensures Placed(StepAgent(st, a, aev), places)
  {
    var next := st.(agents := st.agents[a := A.Apply(st.agents[a], aev)]);
    assert TasksPlaced(places, a, A.Apply(st.agents[a], aev).tasks);
    PostAgentPlaced(places, next, a, A.Outputs(st.agents[a], aev));
    PostAgentOnlyQueues(next, a, A.Outputs(st.agents[a], aev));
  }

  // --- every step ---

  predicate ProxyGiven(w: World, places: Places, p: ProxyId, pev: P.Event) {
    && (pev.Accept? ==> pev.s in w.links && w.links[pev.s].server == ProxyNode(p))
    && (pev.Request? && pev.req.ToolRequest? ==>
          pev.req.requestId in places && places[pev.req.requestId] == AtProxy(p))
  }

  predicate AgentGiven(places: Places, a: AgentId, aev: A.Event) {
    aev.Dispatch? && aev.msg.ToolRequest? ==>
      aev.msg.requestId in places && places[aev.msg.requestId] == AtAgent(a)
  }

  /** The places say what the step takes up. */
  predicate Given(st: State, places: Places, step: Step) {
    match step
    case CenterDoes(cev) => BeginsUnplaced(places, st.center.router, C.RouterPart(st.center, cev))
    case ProxyDoes(p, pev) => ProxyGiven(st.world, places, p, pev)
    case AgentDoes(a, aev) => AgentGiven(places, a, aev)
    case Nobody => true
  }

  lemma ActedPlaced(st: State, places: Places, step: Step)
    requires Placed(st, places) && PartsOk(st) && IdsOk(st) && Given(st, places, step)
    ensures Placed(Acted(st, step), Shipped(st, places, step))
  {
    match step
    case CenterDoes(cev) => CenterPlaced(st, places, cev);
    case ProxyDoes(p, pev) =>
      if Forwards(st, step) {
        ForwardPlaced(st, places, p);
      } else if p in st.proxies {
        ProxyPlaced(st, places, p, pev);
      }
    case AgentDoes(a, aev) => if a in st.agents { AgentPlaced(st, places, a, aev); }
    case Nobody =>
  }

  /** Taking a request off a stream puts it where the taker is. */
  lemma DownPlaced(st: State, places: Places, s: StreamId, to: Place)
    requires Placed(st, places) && s in st.queues && st.queues[s].down != []
    ensures var m, next := st.queues[s].down[0], st.(queues := PopDown(st.queues, s));
            Placed(next, if m.ToolRequest? then places[m.requestId := to] else places)
  {
    var m := st.queues[s].down[0];
    PopDownPlaced(places, st.queues, s);
    if m.ToolRequest? {
      assert QueuePlaced(places, s, st.queues[s].down);
      MovePlaced(places, PopDown(st.queues, s), m.requestId, to);
      OthersStay(st, places, m.requestId, to);
    }
  }

  /** The past may grow. */
  lemma WorldPlaced(st: State, places: Places, w: World)
    requires Placed(st, places) && w.links == st.world.links && st.world.issued.Keys <= w.issued.Keys
    ensures Placed(st.(world := w), places)
  {
  }

  lemma TakenPlaced(st: State, places: Places, ev: Event)
    requires Placed(st, places) && !OfStreams(ev)
    ensures Placed(Taken(st, ev), Fetched(st, places, ev))
  {
    var w := Recorded(st, ev);
    RecordedLinks(st, ev);
    if ReadsUp(st, ev) {
      SameDownsPlaced(places, st.queues, PopUp(st.queues, ev.s));
      WorldPlaced(st.(queues := PopUp(st.queues, ev.s)), places, w);
    } else if ReadsDown(st, ev) {
      DownPlaced(st, places, ev.s, if ev.ProxyHears? then AtProxy(ev.p) else AtAgent(ev.a));
      WorldPlaced(st.(queues := PopDown(st.queues, ev.s)), Fetched(st, places, ev), w);
    } else {
      WorldPlaced(st, places, w);
    }
  }

  lemma GivenByTaking(st: State, places: Places, ev: Event)
    requires Placed(st, places) && FreshId(st, ev) && !OfStreams(ev)
    ensures Given(Taken(st, ev), Fetched(st, places, ev), StepOf(st, ev))
  {
  }

  lemma BreakPlaced(st: State, places: Places, s: StreamId, keptUp: nat, keptDown: nat)
    requires Placed(st, places)
    ensures Placed(Rewired(st, Break(s, keptUp, keptDown)), places)
  {
    var next := Rewired(st, Break(s, keptUp, keptDown)).queues;
    forall t | t in next ensures QueuePlaced(places, t, next[t].down) {
      assert QueuePlaced(places, t, st.queues[t].down);
    }
  }

  lemma DialPlaced(st: State, places: Places, s: StreamId, client: Node, server: Node)
    requires Placed(st, places)
    ensures Placed(Rewired(st, Dial(s, client, server)), places)
  {
    var next := Rewired(st, Dial(s, client, server));
    forall t | t in next.queues ensures QueuePlaced(places, t, next.queues[t].down) {
      if t in st.queues { assert QueuePlaced(places, t, st.queues[t].down); }
    }
    forall p | p in st.proxies ensures ProxyStreams(next.world, p, st.proxies[p]) {
      assert ProxyStreams(st.world, p, st.proxies[p]);
    }
  }

  /** Dialling, losing, attaching and heartbeats of nodes. */
  lemma RewiredPlaced(st: State, places: Places, ev: Event)
    requires Placed(st, places) && OfStreams(ev)
    ensures Placed(Rewired(st, ev), places)
  {
    match ev
    case Dial(s, client, server) => DialPlaced(st, places, s, client, server);
    case Break(s, keptUp, keptDown) => BreakPlaced(st, places, s, keptUp, keptDown);
    case Beat(node, timestamp) => SendPlaced(places, st, node, Heartbeat(timestamp));
    case _ =>
  }

  lemma StepPlaced(st: State, places: Places, ev: Event)
    requires Placed(st, places) && PartsOk(st) && IdsOk(st) && FreshId(st, ev)
    ensures Placed(Apply(st, ev), Moved(st, places, ev))
  {
    if OfStreams(ev) {
      RewiredPlaced(st, places, ev);
    } else {
      TakenPlaced(st, places, ev);
      GivenByTaking(st, places, ev);
      RecordedLinks(st, ev);
      TakenLeavesParts(st, ev);
      ActedPlaced(Taken(st, ev), Fetched(st, places, ev), StepOf(st, ev));
    }
  }

  /** A request that some proxy's reader has met: it never comes back to a stream
      that leads to a proxy. */
  predicate Past(st: State, places: Places, id: RequestId) {
    id in places &&
    (places[id].Wire? ==> places[id].s in st.world.links && !st.world.links[places[id].s].server.CenterNode?)
  }

  /** A request that has passed a reader goes on to streams of proxies, or to agents. */
  lemma PastStays(st: State, places: Places, ev: Event, id: RequestId)
    requires Placed(st, places) && Past(st, places, id)
    ensures Past(Apply(st, ev), Moved(st, places, ev), id)
  {
    if OfStreams(ev) {
      LinksStay(st, ev);
    } else {
      TakenPlaced(st, places, ev);
      TakenKeepsWires(st, ev);
      FetchedPast(st, places, ev, id);
      ShippedPast(Taken(st, ev), Fetched(st, places, ev), StepOf(st, ev), id);
      ActedKeepsWires(Taken(st, ev), StepOf(st, ev));
    }
  }

  lemma FetchedPast(st: State, places: Places, ev: Event, id: RequestId)
    requires Past(st, places, id) && !OfStreams(ev)
    ensures Past(Taken(st, ev), Fetched(st, places, ev), id)
  {
    TakenKeepsWires(st, ev);
  }

  lemma ShippedPast(st: State, places: Places, step: Step, id: RequestId)
    requires Placed(st, places) && Past(st, places, id)
    ensures Past(st, Shipped(st, places, step), id)
  {
    if Transmits(st, step) {
      assert st.center.router.calls[step.cev.step.c].id !in places;
    } else if Forwards(st, step) {
      assert ProxyStreams(st.world, step.p, st.proxies[step.p]);
    }
  }

  lemma LinksStay(st: State, ev: Event)
    ensures forall s :: s in st.world.links ==>
      s in Apply(st, ev).world.links && Apply(st, ev).world.links[s] == st.world.links[s]
  {
    ActedKeepsWires(Taken(st, ev), StepOf(st, ev));
    if !OfStreams(ev) { TakenKeepsWires(st, ev); }
  }

  /** The steps of proxy `p`, and of agent `a`, in a run of the system. */
  function ProxyEvents(st: State, es: seq<Event>, p: ProxyId): seq<P.Event>
    decreases |es|
  {
    if es == [] || p !in st.proxies then [] else ProxyPart(st, es[0], p) + ProxyEvents(Apply(st, es[0]), es[1..], p)
  }

  function AgentEvents(st: State, es: seq<Event>, a: AgentId): seq<A.Event>
    decreases |es|
  {
    if es == [] || a !in st.agents then [] else AgentPart(st, es[0], a) + AgentEvents(Apply(st, es[0]), es[1..], a)
  }

  /** Everything that holds of a state in a run with fresh ids. */
  ghost predicate Tidy(st: State, places: Places) {
    Placed(st, places) && Wired(st) && PartsOk(st) && IdsOk(st)
  }

  lemma TidyStep(st: State, places: Places, ev: Event)
    requires Tidy(st, places) && FreshId(st, ev)
    ensures Tidy(Apply(st, ev), Moved(st, places, ev))
  {
    StepPlaced(st, places, ev);
    WiredStep(st, ev);
    StepKeepsParts(st, ev);
    StepKeepsIds(st, ev);
  }

  lemma StartIsTidy(hosts: map<AgentId, Host>, tools: set<string>, proxies: map<ProxyId, Host>)
    ensures Tidy(Initial(hosts, tools, proxies), map[])
  {
  }

  /** What the reader of `p` asks for in the step has not been at any reader before. */
  lemma AskedOnce(st: State, places: Places, ev: Event, p: ProxyId)
    requires Tidy(st, places) && p in st.proxies
    ensures var part := ProxyPart(st, ev, p);
            part != [] && part[0].Request? && part[0].req.ToolRequest? ==>
              var id := part[0].req.requestId;
              && !Past(st, places, id)
              && Past(Apply(st, ev), Moved(st, places, ev), id)
  {
    var part := ProxyPart(st, ev, p);
    if part != [] && part[0].Request? && part[0].req.ToolRequest? {
      assert ev.ProxyHears? && ReadsDown(st, ev) && ev.p == p;
      assert QueuePlaced(places, ev.s, st.queues[ev.s].down);
    }
  }

  function AskedBy(seen: set<RequestId>, part: seq<P.Event>): set<RequestId> {
    if part == [] then seen else P.Asked(seen, part[0])
  }

  ghost predicate AllPast(st: State, places: Places, seen: set<RequestId>) {
    forall id :: id in seen ==> Past(st, places, id)
  }

  /** The ids that the reader has met stay behind it, those of this step included. */
  lemma SeenStays(st: State, places: Places, ev: Event, p: ProxyId, seen: set<RequestId>)
    requires Tidy(st, places) && p in st.proxies && AllPast(st, places, seen)
    ensures AllPast(Apply(st, ev), Moved(st, places, ev), AskedBy(seen, ProxyPart(st, ev, p)))
    ensures P.DistinctIds(seen, ProxyPart(st, ev, p))
  {
    var part := ProxyPart(st, ev, p);
    AskedOnce(st, places, ev, p);
    forall id | id in AskedBy(seen, part) ensures Past(Apply(st, ev), Moved(st, places, ev), id) {
      if id in seen { PastStays(st, places, ev, id); }
    }
    assert part != [] ==> part[1..] == [];
  }

  lemma DistinctThen(seen: set<RequestId>, part: seq<P.Event>, rest: seq<P.Event>)
    requires |part| <= 1 && P.DistinctIds(seen, part) && P.DistinctIds(AskedBy(seen, part), rest)
    ensures P.DistinctIds(seen, part + rest)
  {
    if part == [] {
      assert part + rest == rest;
    } else {
      assert (part + rest)[0] == part[0] && (part + rest)[1..] == rest;
    }
  }

  lemma ProxyRunThen(pst: P.State, part: seq<P.Event>, rest: seq<P.Event>)
    requires |part| <= 1
    ensures P.Run(pst, part + rest) == P.Run(P.Run(pst, part), rest)
  {
    if part == [] {
      assert part + rest == rest;
    } else {
      assert (part + rest)[0] == part[0] && (part + rest)[1..] == rest && part[1..] == [];
    }
  }

  lemma {:induction false} ProxyRuns(st: State, es: seq<Event>, p: ProxyId)
    requires p in st.proxies
    ensures p in Run(st, es).proxies && Run(st, es).proxies[p] == P.Run(st.proxies[p], ProxyEvents(st, es, p))
    decreases |es|
  {
    if es != [] {
      OneProxySteps(st, es[0], p);
      ProxyRunThen(st.proxies[p], ProxyPart(st, es[0], p), ProxyEvents(Apply(st, es[0]), es[1..], p));
      ProxyRuns(Apply(st, es[0]), es[1..], p);
    }
  }

  lemma MeetsStep(st: State, places: Places, ev: Event, p: ProxyId, seen: set<RequestId>)
    requires Tidy(st, places) && FreshId(st, ev) && p in st.proxies && AllPast(st, places, seen)
    ensures Tidy(Apply(st, ev), Moved(st, places, ev)) && p in Apply(st, ev).proxies
    ensures AllPast(Apply(st, ev), Moved(st, places, ev), AskedBy(seen, ProxyPart(st, ev, p)))
    ensures P.DistinctIds(seen, ProxyPart(st, ev, p)) && |ProxyPart(st, ev, p)| <= 1
  {
    TidyStep(st, places, ev);
    OneProxySteps(st, ev, p);
    SeenStays(st, places, ev, p, seen);
  }

  lemma {:induction false} ProxyMeetsOnce(st: State, places: Places, es: seq<Event>, p: ProxyId, seen: set<RequestId>)
    requires Tidy(st, places) && FreshIds(st, es) && p in st.proxies && AllPast(st, places, seen)
    ensures P.DistinctIds(seen, ProxyEvents(st, es, p))
    decreases |es|
  {
    if es != [] {
      var part, next, after := ProxyPart(st, es[0], p), Apply(st, es[0]), Moved(st, places, es[0]);
      MeetsStep(st, places, es[0], p, seen);
      ProxyMeetsOnce(next, after, es[1..], p, AskedBy(seen, part));
      DistinctThen(seen, part, ProxyEvents(next, es[1..], p));
    }
  }

  /** What an agent takes is under an id that none of its requests has. */
  lemma TakenOnce(st: State, places: Places, ev: Event, a: AgentId)
    requires Tidy(st, places) && a in st.agents
    ensures var part := AgentPart(st, ev, a);
            part != [] && part[0].Dispatch? && part[0].msg.ToolRequest? ==>
              forall r :: r in st.agents[a].tasks ==> st.agents[a].tasks[r].id != part[0].msg.requestId
  {
    var part := AgentPart(st, ev, a);
    if part != [] && part[0].Dispatch? && part[0].msg.ToolRequest? {
      assert ev.AgentHears? && ReadsDown(st, ev) && ev.a == a;
      assert QueuePlaced(places, ev.s, st.queues[ev.s].down);
    }
  }

  lemma AgentThen(ast: A.State, part: seq<A.Event>, rest: seq<A.Event>)
    requires |part| <= 1 && A.DistinctIds(ast, part) && A.DistinctIds(A.Run(ast, part), rest)
    ensures A.DistinctIds(ast, part + rest) && A.Run(ast, part + rest) == A.Run(A.Run(ast, part), rest)
  {
    if part == [] {
      assert part + rest == rest;
    } else {
      assert (part + rest)[0] == part[0] && (part + rest)[1..] == rest && part[1..] == [];
      assert A.Run(ast, part) == A.Apply(ast, part[0]);
    }
  }

  lemma TakesStep(st: State, places: Places, ev: Event, a: AgentId)
    requires Tidy(st, places) && FreshId(st, ev) && a in st.agents
    ensures Tidy(Apply(st, ev), Moved(st, places, ev)) && a in Apply(st, ev).agents
    ensures Apply(st, ev).agents[a] == A.Run(st.agents[a], AgentPart(st, ev, a))
    ensures A.DistinctIds(st.agents[a], AgentPart(st, ev, a)) && |AgentPart(st, ev, a)| <= 1
  {
    TidyStep(st, places, ev);
    OneAgentSteps(st, ev, a);
    TakenOnce(st, places, ev, a);
    assert AgentPart(st, ev, a) != [] ==> AgentPart(st, ev, a)[1..] == [];
  }

  lemma {:induction false} AgentMeetsOnce(st: State, places: Places, es: seq<Event>, a: AgentId)
    requires Tidy(st, places) && FreshIds(st, es) && a in st.agents
    ensures A.DistinctIds(st.agents[a], AgentEvents(st, es, a))
    ensures a in Run(st, es).agents && Run(st, es).agents[a] == A.Run(st.agents[a], AgentEvents(st, es, a))
    decreases |es|
  {
    if es != [] {
      var part, next := AgentPart(st, es[0], a), Apply(st, es[0]);
      TakesStep(st, places, es[0], a);
      AgentMeetsOnce(next, Moved(st, places, es[0]), es[1..], a);
      AgentThen(st.agents[a], part, AgentEvents(next, es[1..], a));
    }
  }

  // --- what follows for proxies and agents in runs of the system ---

  /** In every run of the system with fresh ids, a proxy's reader and an agent meet
      each id at most once, and each of them makes a run of its own machine. */
  lemma RequestsArriveOnce(
      hosts: map<AgentId, Host>, tools: set<string>, proxies: map<ProxyId, Host>, es: seq<Event>, p: ProxyId,
        a: AgentId)
    requires FreshIds(Initial(hosts, tools, proxies), es) && p in proxies && a in hosts
    ensures var start := Initial(hosts, tools, proxies);
            && P.DistinctIds({}, ProxyEvents(start, es, p))
            && A.DistinctIds(A.Initial(tools), AgentEvents(start, es, a))
            && p in Run(start, es).proxies && a in Run(start, es).agents
            && Run(start, es).proxies[p] == P.Run(P.Initial(proxies[p]), ProxyEvents(start, es, p))
            && Run(start, es).agents[a] == A.Run(A.Initial(tools), AgentEvents(start, es, a))
  {
    StartIsTidy(hosts, tools, proxies);
    ProxyMeetsOnce(Initial(hosts, tools, proxies), map[], es, p, {});
    ProxyRuns(Initial(hosts, tools, proxies), es, p);
    AgentMeetsOnce(Initial(hosts, tools, proxies), map[], es, a);
  }

  /** So at every proxy each id is stored at most once and leaves the pending map
      by exactly one of reply, failed forward, cancel and clear, or is still there. */
  lemma EntriesLeaveOnce(
      hosts: map<AgentId, Host>, tools: set<string>, proxies: map<ProxyId, Host>, es: seq<Event>, p: ProxyId,
        id: RequestId)
    requires FreshIds(Initial(hosts, tools, proxies), es) && p in proxies
    ensures var start := Initial(hosts, tools, proxies);
            var pes, first := ProxyEvents(start, es, p), P.Initial(proxies[p]);
            && p in Run(start, es).proxies
            && P.StoreCount(first, pes, id) <= 1
            && |P.Exits(first, pes, id)| + (if id in Run(start, es).proxies[p].pending then 1 else 0) ==
              P.StoreCount(first, pes, id)
  {
    var start := Initial(hosts, tools, proxies);
    StartIsTidy(hosts, tools, proxies);
    ProxyMeetsOnce(start, map[], es, p, {});
    ProxyRuns(start, es, p);
    P.EachEntryLeavesOnce(proxies[p], ProxyEvents(start, es, p), id);
  }

  /** And no proxy claims a cancel for an id whose reply it has taken up after its
      request went down, or whose cancel it has claimed before. */
  lemma NoLateCancel(
      hosts: map<AgentId, Host>, tools: set<string>, proxies: map<ProxyId, Host>, es: seq<Event>, p: ProxyId,
      before: seq<P.Event>, ev: P.Event, after: seq<P.Event>)
    requires FreshIds(Initial(hosts, tools, proxies), es) && p in proxies
    requires ProxyEvents(Initial(hosts, tools, proxies), es, p) == before + ([ev] + after)
    ensures var mid := P.Run(P.Initial(proxies[p]), before);
            && (ev.TakeReply? && ev.reply.IsReply() && P.IsServing(mid, ev.s)
                && P.Sent(P.Initial(proxies[p]), before, ev.reply.requestId) ==>
                  P.NeverClaims(P.Apply(mid, ev), after, ev.reply.requestId))
            && (ev.Claim? && P.Claims(mid, ev, ev.requestId) ==> P.NeverClaims(P.Apply(mid, ev), after, ev.requestId))
  {
    var mid := P.Run(P.Initial(proxies[p]), before);
    StartIsTidy(hosts, tools, proxies);
    ProxyMeetsOnce(Initial(hosts, tools, proxies), map[], es, p, {});
    if ev.TakeReply? && ev.reply.IsReply() && P.IsServing(mid, ev.s)
      && P.Sent(P.Initial(proxies[p]), before, ev.reply.requestId) {
      P.NoCancelAfterReply(proxies[p], before, ev.s, ev.reply, after);
    }
    if ev.Claim? && P.Claims(mid, ev, ev.requestId) {
      P.OneClaimPerId(proxies[p], before, after, ev.requestId);
    }
  }

  /** And a cancel that reaches an agent cancels the context of exactly the
      unfinished request of its id. */
  lemma CancelsAreExact(
      hosts: map<AgentId, Host>, tools: set<string>, proxies: map<ProxyId, Host>, es: seq<Event>, a: AgentId,
        r: A.RunId, q: A.RunId)
    requires FreshIds(Initial(hosts, tools, proxies), es) && a in hosts
    requires var end := Run(Initial(hosts, tools, proxies), es);
             a in end.agents && r in end.agents[a].tasks && !end.agents[a].tasks[r].phase.Ended?
    ensures var agent := Run(Initial(hosts, tools, proxies), es).agents[a];
            var next := A.Apply(agent, A.Dispatch(q, CancelRequest(agent.tasks[r].id)));
            && next.tasks.Keys == agent.tasks.Keys
            && next.tasks[r] == agent.tasks[r].(canceled := true)
            && forall t :: t in agent.tasks && t != r ==> next.tasks[t] == agent.tasks[t]
  {
    StartIsTidy(hosts, tools, proxies);
    AgentMeetsOnce(Initial(hosts, tools, proxies), map[], es, a);
    A.CancelIsExact(tools, AgentEvents(Initial(hosts, tools, proxies), es, a), r, q);
  }
}
