/** Center, proxies and agents joined by ordered streams that may break at any
    time. The main result: whatever the interleaving, a result that a call gets
    back was produced for that very call on a node registered as its target. */
module System {
  import opened Tunnel
  import R = Registry
  import M = RouterMachine
  import C = Center
  import P = Proxy
  import A = Agent

  type AgentId = nat
  type ProxyId = nat

  datatype Node = CenterNode | ProxyNode(p: ProxyId) | AgentNode(a: AgentId)

  datatype Link = Link(client: Node, server: Node)
  datatype Queue = Queue(up: seq<Message>, down: seq<Message>)

  /** A request center has looked up a route for. */
  datatype Issue = Issue(host: Host, tool: string, args: string)

  /** A handler run that has ended on an agent. */
  datatype Done = Done(agent: AgentId, id: RequestId, tool: string, args: string, finding: A.Finding)

  /** A registration that center or a proxy has admitted. */
  datatype Registration = Registration(stream: StreamId, host: Host)

  /** A request that a proxy has refused because it did not hold the target. */
  datatype Refusal = Refusal(proxy: ProxyId, id: RequestId, target: Host)

  /** What only ever grows: the names of the agents, the ends of the streams, the
      registrations, requests, refusals and handler runs of the past. */
  datatype World = World(
    hosts: map<AgentId, Host>,
    links: map<StreamId, Link>,
    registered: set<Registration>,
    issued: map<RequestId, Issue>,
    refused: set<Refusal>,
    done: set<Done>)

  datatype State = State(
    world: World,
    center: C.State,
    proxies: map<ProxyId, P.State>,
    agents: map<AgentId, A.State>,
    queues: map<StreamId, Queue>,
    current: map<Node, StreamId>)

  function Initial(hosts: map<AgentId, Host>, tools: set<string>, proxies: map<ProxyId, Host>): State {
    State(World(hosts, map[], {}, map[], {}, {}), C.EMPTY,
          map p | p in proxies :: P.Initial(proxies[p]),
          map a | a in hosts :: A.Initial(tools),
          map[], map[])
  }

  datatype Event =
    | Dial(s: StreamId, client: Node, server: Node)
    | Break(s: StreamId, keptUp: nat, keptDown: nat)
    | Attach(node: Node, s: StreamId)
    | Detach(node: Node)
    | Beat(node: Node, timestamp: int)
    | CenterAccepts(s: StreamId, authOk: bool, persistOk: bool, now: int)
    | CenterReads(s: StreamId, now: int)
    | CenterMoves(cev: C.Event)
    | ProxyAccepts(p: ProxyId, s: StreamId, authOk: bool, now: int)
    | ProxyReads(p: ProxyId, s: StreamId, now: int)
    | ProxyHears(p: ProxyId, s: StreamId)
    | ProxyMoves(p: ProxyId, pev: P.Event)
    | AgentHears(a: AgentId, s: StreamId, r: A.RunId)
    | AgentMoves(a: AgentId, aev: A.Event)

  // --- queues ---

  function PushUp(qs: map<StreamId, Queue>, s: StreamId, m: Message): map<StreamId, Queue> {
    if s in qs then qs[s := qs[s].(up := qs[s].up + [m])] else qs
  }

  function PushDown(qs: map<StreamId, Queue>, s: StreamId, m: Message): map<StreamId, Queue> {
    if s in qs then qs[s := qs[s].(down := qs[s].down + [m])] else qs
  }

  function PopUp(qs: map<StreamId, Queue>, s: StreamId): map<StreamId, Queue>
    requires s in qs && qs[s].up != []
  {
    qs[s := qs[s].(up := qs[s].up[1..])]
  }

  function PopDown(qs: map<StreamId, Queue>, s: StreamId): map<StreamId, Queue>
    requires s in qs && qs[s].down != []
  {
    qs[s := qs[s].(down := qs[s].down[1..])]
  }

  /** What `node` sends goes on its current stream, or nowhere. */
  function Send(st: State, node: Node, m: Message): State {
    if node in st.current then st.(queues := PushUp(st.queues, st.current[node], m)) else st
  }

  function PostCenter(st: State, outs: seq<C.Output>): State
    decreases |outs|
  {
    if outs == [] then st
    else PostCenter(st.(queues := PushDown(st.queues, outs[0].s, outs[0].msg)), outs[1..])
  }

  function PostProxy(st: State, p: ProxyId, outs: seq<P.Output>): State
    decreases |outs|
  {
    if outs == [] then st
    else PostProxy(match outs[0]
                   case Up(m) => Send(st, ProxyNode(p), m)
                   case Down(s, m) => st.(queues := PushDown(st.queues, s, m)),
                   p, outs[1..])
  }

  function PostAgent(st: State, a: AgentId, outs: seq<Message>): State
    decreases |outs|
  {
    if outs == [] then st else PostAgent(Send(st, AgentNode(a), outs[0]), a, outs[1..])
  }

  // --- steps ---

  /** The first message of a node on a new stream. */
  function Hello(st: State, client: Node): Option<Message> {
    match client
    case AgentNode(a) => if a in st.world.hosts
      then Some(RegisterRequest(st.world.hosts[a], NodeType.Agent, [], Info("", "", ""))) else None
    case ProxyNode(p) => if p in st.proxies
      then Some(RegisterRequest(st.proxies[p].name, NodeType.Proxy, [], Info("", "proxy", "1.0.0"))) else None
    case CenterNode => None
  }

  /** Agents dial center or a proxy, proxies dial center. */
  predicate MayDial(st: State, client: Node, server: Node) {
    && Hello(st, client).Some?
    && match server
       case CenterNode => true
       case ProxyNode(p) => client.AgentNode? && p in st.proxies
       case AgentNode(_) => false
  }

  function StepCenter(st: State, ev: C.Event): State {
    PostCenter(st.(center := C.Apply(st.center, ev)), C.Outputs(st.center, ev))
  }

  function StepProxy(st: State, p: ProxyId, ev: P.Event): State
    requires p in st.proxies
  {
    PostProxy(st.(proxies := st.proxies[p := P.Apply(st.proxies[p], ev)]), p, P.Outputs(st.proxies[p], ev))
  }

  /** The handler run that ends with this step, if one does. */
  function Ended(st: State, a: AgentId, ev: A.Event): set<Done>
    requires a in st.agents
  {
    if ev.HandlerEnds? && A.Possible(st.agents[a], ev.r, ev.finding) then
      var t := st.agents[a].tasks[ev.r];
      {Done(a, t.id, t.tool, t.args, ev.finding)}
    else {}
  }

  function StepAgent(st: State, a: AgentId, ev: A.Event): State
    requires a in st.agents
  {
    PostAgent(st.(agents := st.agents[a := A.Apply(st.agents[a], ev)]), a, A.Outputs(st.agents[a], ev))
  }

  predicate Readable(st: State, s: StreamId, server: Node) {
    s in st.world.links && st.world.links[s].server == server && s in st.queues && st.queues[s].up != []
  }

  predicate Hearable(st: State, s: StreamId, client: Node) {
    s in st.world.links && st.world.links[s].client == client && s in st.queues && st.queues[s].down != []
  }

  /** The steps of center that read no stream. */
  predicate OwnCenterStep(ev: C.Event) {
    !ev.Accept? && !ev.Receive?
  }

  predicate OwnProxyStep(ev: P.Event) {
    !ev.Accept? && !ev.Beat? && !ev.TakeReply? && !ev.Request? && !ev.Claim?
  }

  function Joined(w: World, s: StreamId, first: Message, admitted: bool): World {
    if admitted && first.RegisterRequest? then w.(registered := w.registered + {Registration(s, first.hostname)}) else w
  }

  /** The world after proxy `p` has looked up the target of the request `m`. */
  function Refused(st: State, p: ProxyId, m: Message): World
    requires p in st.proxies
  {
    if m.ToolRequest? && m.target !in st.proxies[p].reg then
      st.world.(refused := st.world.refused + {Refusal(p, m.requestId, m.target)})
    else st.world
  }

  function Issued(st: State, ev: C.Event): World {
    if ev.Lookup? && ev.host in st.center.reg && ev.c !in st.center.router.calls
    then st.world.(issued := st.world.issued[ev.id := Issue(ev.host, ev.tool, ev.args)])
    else st.world
  }

  function Prefix(q: seq<Message>, n: nat): seq<Message> {
    if n <= |q| then q[..n] else q
  }

  /** Events that concern the streams alone. */
  predicate OfStreams(ev: Event) {
    ev.Dial? || ev.Break? || ev.Attach? || ev.Detach? || ev.Beat?
  }

  function Rewired(st: State, ev: Event): State
    requires OfStreams(ev)
  {
    match ev
    case Dial(s, client, server) =>
      if s !in st.world.links && MayDial(st, client, server) then
        st.(world := st.world.(links := st.world.links[s := Link(client, server)]),
            queues := st.queues[s := Queue([Hello(st, client).value], [])])
      else st
    case Break(s, keptUp, keptDown) =>
      if s in st.queues then
        st.(queues := st.queues[s := Queue(Prefix(st.queues[s].up, keptUp), Prefix(st.queues[s].down, keptDown))])
      else st
    case Attach(node, s) =>
      if s in st.world.links && st.world.links[s].client == node then st.(current := st.current[node := s]) else st
    case Detach(node) => st.(current := st.current - {node})
    case Beat(node, timestamp) => Send(st, node, Heartbeat(timestamp))
  }

  /** The event takes the first message that goes up on its stream. */
  predicate ReadsUp(st: State, ev: Event) {
    match ev
    case CenterAccepts(s, _, _, _) => Readable(st, s, CenterNode) && s !in st.center.handlers
    case CenterReads(s, _) => Readable(st, s, CenterNode) && C.IsServing(st.center, s)
    case ProxyAccepts(p, s, _, _) =>
      p in st.proxies && Readable(st, s, ProxyNode(p)) && s !in st.proxies[p].handlers
    case ProxyReads(p, s, _) => p in st.proxies && Readable(st, s, ProxyNode(p)) && P.IsServing(st.proxies[p], s)
    case _ => false
  }

  /** The event takes the first message that goes down on its stream. */
  predicate ReadsDown(st: State, ev: Event) {
    match ev
    case ProxyHears(p, s) => p in st.proxies && Hearable(st, s, ProxyNode(p)) && st.proxies[p].reader.Idle?
    case AgentHears(a, s, r) => a in st.agents && Hearable(st, s, AgentNode(a)) && r !in st.agents[a].tasks
    case _ => false
  }

  datatype Step =
    | CenterDoes(cev: C.Event)
    | ProxyDoes(p: ProxyId, pev: P.Event)
    | AgentDoes(a: AgentId, aev: A.Event)
    | Nobody

  function ProxyReading(s: StreamId, m: Message, now: int): Option<P.Event> {
    if m.Heartbeat? then Some(P.Beat(s, m.timestamp, now)) else if m.IsReply() then Some(P.TakeReply(s, m)) else None
  }

  function ProxyHearing(m: Message): Option<P.Event> {
    if m.ToolRequest? then Some(P.Request(m)) else if m.CancelRequest? then Some(P.Claim(m.requestId)) else None
  }

  /** Which party takes which step of its own machine. */
  function StepOf(st: State, ev: Event): Step {
    match ev
    case CenterAccepts(s, authOk, persistOk, now) =>
      if ReadsUp(st, ev) then CenterDoes(C.Accept(s, st.queues[s].up[0], authOk, persistOk, now)) else Nobody
    case CenterReads(s, now) => if ReadsUp(st, ev) then CenterDoes(C.Receive(s, st.queues[s].up[0], now)) else Nobody
    case CenterMoves(cev) => if OwnCenterStep(cev) then CenterDoes(cev) else Nobody
    case ProxyAccepts(p, s, authOk, now) =>
      if ReadsUp(st, ev) then ProxyDoes(p, P.Accept(s, st.queues[s].up[0], authOk, now)) else Nobody
    case ProxyReads(p, s, now) =>
      if ReadsUp(st, ev) && ProxyReading(s, st.queues[s].up[0], now).Some?
      then ProxyDoes(p, ProxyReading(s, st.queues[s].up[0], now).value) else Nobody
    case ProxyHears(p, s) =>
      if ReadsDown(st, ev) && ProxyHearing(st.queues[s].down[0]).Some?
      then ProxyDoes(p, ProxyHearing(st.queues[s].down[0]).value) else Nobody
    case ProxyMoves(p, pev) => if p in st.proxies && OwnProxyStep(pev) then ProxyDoes(p, pev) else Nobody
    case AgentHears(a, s, r) =>
      if ReadsDown(st, ev) then AgentDoes(a, A.Dispatch(r, st.queues[s].down[0])) else Nobody
    case AgentMoves(a, aev) => if a in st.agents && !aev.Dispatch? then AgentDoes(a, aev) else Nobody
    case _ => Nobody
  }

  /** What the event adds to the past. */
  function Recorded(st: State, ev: Event): World {
    match ev
    case CenterAccepts(s, authOk, persistOk, now) =>
      if ReadsUp(st, ev) then
        var first := st.queues[s].up[0];
        Joined(st.world, s, first, C.Admitted(st.center, C.Accept(s, first, authOk, persistOk, now)))
      else st.world
    case CenterMoves(cev) => if OwnCenterStep(cev) then Issued(st, cev) else st.world
    case ProxyAccepts(p, s, authOk, now) =>
      if ReadsUp(st, ev) then
        var first := st.queues[s].up[0];
        Joined(st.world, s, first, P.Admitted(st.proxies[p], P.Accept(s, first, authOk, now)))
      else st.world
    case ProxyHears(p, s) => if ReadsDown(st, ev) then Refused(st, p, st.queues[s].down[0]) else st.world
    case AgentMoves(a, aev) => if a in st.agents then st.world.(done := st.world.done + Ended(st, a, aev)) else st.world
    case _ => st.world
  }

  /** What the event does before a party takes its step: it takes the message off
      the stream and records the past. */
  function Taken(st: State, ev: Event): State {
    if OfStreams(ev) then Rewired(st, ev)
    else if ReadsUp(st, ev) then st.(world := Recorded(st, ev), queues := PopUp(st.queues, ev.s))
    else if ReadsDown(st, ev) then st.(world := Recorded(st, ev), queues := PopDown(st.queues, ev.s))
    else st.(world := Recorded(st, ev))
  }

  function Acted(st: State, step: Step): State {
    match step
    case CenterDoes(cev) => StepCenter(st, cev)
    case ProxyDoes(p, pev) => if p in st.proxies then StepProxy(st, p, pev) else st
    case AgentDoes(a, aev) => if a in st.agents then StepAgent(st, a, aev) else st
    case Nobody => st
  }

  function Apply(st: State, ev: Event): State {
    Acted(Taken(st, ev), StepOf(st, ev))
  }

  function Run(st: State, es: seq<Event>): State
    decreases |es|
  {
    if es == [] then st else Run(Apply(st, es[0]), es[1..])
  }

  /** No call ever looks up a route under an id that was used before. */
  predicate FreshIds(st: State, es: seq<Event>)
    decreases |es|
  {
    es == [] ||
    (&& (es[0].CenterMoves? && es[0].cev.Lookup? ==> es[0].cev.id !in st.world.issued)
     && FreshIds(Apply(st, es[0]), es[1..]))
  }

  // --- what keeps replies and requests honest ---

  /** The client of stream `s` may speak of `h`: it is a proxy, or an agent named `h`. */
  predicate Names(w: World, s: StreamId, h: Host) {
    && s in w.links
    && (w.links[s].client.AgentNode? ==> w.links[s].client.a in w.hosts && w.hosts[w.links[s].client.a] == h)
  }

  /** An agent at the other end of `s` has registered on it under its name. */
  predicate Enrolled(w: World, s: StreamId) {
    && s in w.links
    && (w.links[s].client.AgentNode? ==>
          && w.links[s].client.a in w.hosts
          && Registration(s, w.hosts[w.links[s].client.a]) in w.registered)
  }

  /** Stream `s` may carry requests for `h`: its client is a proxy, or an agent
      named `h` that has registered on it. */
  predicate Leads(w: World, s: StreamId, h: Host) {
    Names(w, s, h) && Enrolled(w, s)
  }

  /** Agent `a` has registered as `h` on some stream of its own. */
  ghost predicate RegisteredAs(w: World, a: AgentId, h: Host) {
    exists s :: s in w.links && w.links[s].client == AgentNode(a) && Registration(s, h) in w.registered
  }

  predicate RequestOk(w: World, m: Message) {
    m.ToolRequest? ==> m.requestId in w.issued && w.issued[m.requestId] == Issue(m.target, m.tool, m.args)
  }

  /** A reply is a proxy's refusal, or what some handler run found. */
  ghost predicate Backed(w: World, m: Message) {
    m.IsReply() ==>
      || (exists r :: r in w.refused && m == P.Refusal(r.id, r.target))
      || (exists d :: d in w.done && m == A.ReplyTo(d.id, d.tool, d.finding))
  }

  ghost predicate UpOk(w: World, s: StreamId, m: Message) {
    Backed(w, m) && (m.RegisterRequest? ==> Names(w, s, m.hostname))
  }

  predicate DownOk(w: World, s: StreamId, m: Message) {
    RequestOk(w, m) && (m.ToolRequest? ==> Leads(w, s, m.target))
  }

  ghost predicate DoneOk(w: World, d: Done) {
    && d.id in w.issued && d.agent in w.hosts && RegisteredAs(w, d.agent, w.hosts[d.agent])
    && w.issued[d.id] == Issue(w.hosts[d.agent], d.tool, d.args)
  }

  predicate RefusalOk(w: World, r: Refusal) {
    r.id in w.issued && w.issued[r.id].host == r.target
  }

  ghost predicate WorldOk(w: World) {
    && (forall d :: d in w.done ==> DoneOk(w, d))
    && (forall r :: r in w.refused ==> RefusalOk(w, r))
  }

  ghost predicate CallOk(w: World, call: M.Call) {
    && call.id in w.issued && w.issued[call.id] == Issue(call.host, call.tool, call.args)
    && Leads(w, call.route, call.host)
    && (call.slot.Some? ==>
      call.slot.value.IsReply() && call.slot.value.requestId == call.id && Backed(w, call.slot.value))
    && (call.phase.Decided? || call.phase.Returned? ==> OutcomeOk(w, call.id, call.phase.outcome))
  }

  ghost predicate OutcomeOk(w: World, id: RequestId, o: M.Outcome) {
    match o
    case Result(json) => Backed(w, ToolResponse(id, json))
    case AgentError(code, message) => Backed(w, ErrorResponse(id, code, message))
    case UnexpectedReply => false
    case _ => true
  }

  ghost predicate RouterOk(w: World, r: M.State) {
    && (forall x :: x in r.calls ==> CallOk(w, r.calls[x]))
    && PendingOk(r)
  }

  predicate CenterHandlerOk(w: World, s: StreamId, h: C.Handler) {
    && (!h.Finished? ==> Enrolled(w, s))
    && (h.Adding? && h.req.RegisterRequest? ==> Names(w, s, h.req.hostname))
  }

  ghost predicate CenterOk(w: World, c: C.State) {
    && (forall h :: h in c.reg ==> Leads(w, c.reg[h].route, h))
    && (forall s :: s in c.handlers ==> CenterHandlerOk(w, s, c.handlers[s]))
    && RouterOk(w, c.router)
  }

  ghost predicate HandlerOk(w: World, s: StreamId, h: P.Handler) {
    && (h.Registered? || h.Serving? || h.Relaying? ==> h.req.RegisterRequest? && Leads(w, s, h.req.hostname))
    && (h.Relaying? ==> Backed(w, h.reply))
  }

  ghost predicate ProxyOk(w: World, p: P.State) {
    && (forall h :: h in p.reg ==> Leads(w, p.reg[h].route, h))
    && (forall s :: s in p.handlers ==> HandlerOk(w, s, p.handlers[s]))
    && (p.reader.Tracking? || p.reader.Forwarding? ==>
          p.reader.req.ToolRequest? && RequestOk(w, p.reader.req) && Leads(w, p.reader.route, p.reader.req.target))
  }

  predicate TaskOk(w: World, h: Host, t: A.Task) {
    t.id in w.issued && w.issued[t.id] == Issue(h, t.tool, t.args)
  }

  ghost predicate AgentOk(w: World, a: AgentId, st: A.State) {
    && a in w.hosts
    && (forall r :: r in st.tasks ==> TaskOk(w, w.hosts[a], st.tasks[r]))
    && (st.tasks != map[] ==> RegisteredAs(w, a, w.hosts[a]))
  }

  ghost predicate QueueOk(w: World, s: StreamId, q: Queue) {
    && s in w.links
    && (forall m :: m in q.up ==> UpOk(w, s, m))
    && (forall m :: m in q.down ==> DownOk(w, s, m))
  }

  ghost predicate QueuesOk(w: World, qs: map<StreamId, Queue>) {
    forall s :: s in qs ==> QueueOk(w, s, qs[s])
  }

  ghost predicate Inv(st: State) {
    && WorldOk(st.world)
    && CenterOk(st.world, st.center)
    && (forall p :: p in st.proxies ==> ProxyOk(st.world, st.proxies[p]))
    && (forall a :: a in st.agents ==> AgentOk(st.world, a, st.agents[a]))
    && QueuesOk(st.world, st.queues)
    && (forall n :: n in st.current ==> st.current[n] in st.world.links && st.world.links[st.current[n]].client == n)
  }

  // --- the world only grows ---

  predicate Grows(w: World, w': World) {
    && w'.hosts == w.hosts
    && (forall s :: s in w.links ==> s in w'.links && w'.links[s] == w.links[s])
    && (forall i :: i in w.issued ==> i in w'.issued && w'.issued[i] == w.issued[i])
    && w.registered <= w'.registered
    && w.refused <= w'.refused
    && w.done <= w'.done
  }

  lemma BackedGrows(w: World, w': World, m: Message)
    requires Grows(w, w') && Backed(w, m)
    ensures Backed(w', m)
  {
  }

  lemma CenterGrows(w: World, w': World, c: C.State)
    requires Grows(w, w') && CenterOk(w, c)
    ensures CenterOk(w', c)
  {
    forall x | x in c.router.calls ensures CallOk(w', c.router.calls[x]) {
      var call := c.router.calls[x];
      if call.slot.Some? { BackedGrows(w, w', call.slot.value); }
      if call.phase.Decided? || call.phase.Returned? {
        match call.phase.outcome {
          case Result(json) => BackedGrows(w, w', ToolResponse(call.id, json));
          case AgentError(code, message) => BackedGrows(w, w', ErrorResponse(call.id, code, message));
          case _ =>
        }
      }
    }
  }

  lemma ProxyGrows(w: World, w': World, p: P.State)
    requires Grows(w, w') && ProxyOk(w, p)
    ensures ProxyOk(w', p)
  {
    forall s | s in p.handlers ensures HandlerOk(w', s, p.handlers[s]) {
      if p.handlers[s].Relaying? { BackedGrows(w, w', p.handlers[s].reply); }
    }
  }

  lemma QueuesGrow(w: World, w': World, qs: map<StreamId, Queue>)
    requires Grows(w, w') && QueuesOk(w, qs)
    ensures QueuesOk(w', qs)
  {
    forall s | s in qs ensures QueueOk(w', s, qs[s]) {
      assert QueueOk(w, s, qs[s]);
      forall m | m in qs[s].up ensures UpOk(w', s, m) { BackedGrows(w, w', m); }
    }
  }

  lemma InvGrows(st: State, w': World)
    requires Inv(st) && Grows(st.world, w') && WorldOk(w')
    ensures Inv(st.(world := w'))
  {
    CenterGrows(st.world, w', st.center);
    QueuesGrow(st.world, w', st.queues);
    forall p | p in st.proxies ensures ProxyOk(w', st.proxies[p]) { ProxyGrows(st.world, w', st.proxies[p]); }
  }

  // --- each party keeps its part, given honest input ---

  lemma CallKeeps(w: World, r: M.State, e: M.Event, x: M.CallId)
    requires RouterOk(w, r) && x in r.calls
    requires e.Deliver? ==> Backed(w, e.msg)
    ensures x in M.Apply(r, e).calls && CallOk(w, M.Apply(r, e).calls[x])
  {
    assert CallOk(w, r.calls[x]);
  }

  lemma RouterKeeps(w: World, r: M.State, e: M.Event)
    requires RouterOk(w, r)
    requires e.Deliver? ==> Backed(w, e.msg)
    requires e.Start? && e.c !in r.calls ==> CallOk(w, M.Call(e.id, e.host, e.tool, e.args, e.route, M.LookedUp, None))
    ensures RouterOk(w, M.Apply(r, e))
  {
    forall x | x in M.Apply(r, e).calls ensures CallOk(w, M.Apply(r, e).calls[x]) {
      if x in r.calls { CallKeeps(w, r, e, x); }
    }
    PendingKeeps(r, e);
  }

  /** The pending map leads to calls of its ids. */
  predicate PendingOk(r: M.State) {
    forall i :: i in r.pending ==> r.pending[i] in r.calls && r.calls[r.pending[i]].id == i
  }

  lemma PendingKeeps(r: M.State, e: M.Event)
    requires PendingOk(r)
    ensures PendingOk(M.Apply(r, e))
  {
  }

  ghost predicate CenterInputOk(w: World, c: C.State, ev: C.Event) {
    && (C.Admitted(c, ev) ==> Leads(w, ev.s, ev.first.hostname))
    && (ev.Receive? ==> UpOk(w, ev.s, ev.msg))
    && (ev.Lookup? && ev.host in c.reg && ev.c !in c.router.calls ==>
          ev.id in w.issued && w.issued[ev.id] == Issue(ev.host, ev.tool, ev.args))
  }

  lemma CenterKeeps(w: World, c: C.State, ev: C.Event)
    requires CenterOk(w, c) && CenterInputOk(w, c, ev)
    ensures CenterOk(w, C.Apply(c, ev))
    ensures forall o :: o in C.Outputs(c, ev) ==> DownOk(w, o.s, o.msg)
  {
    match ev
    case Accept(_, _, _, _, _) =>
    case Ack(_, _) =>
    case Receive(s, msg, _) =>
      if C.IsServing(c, s) && msg.IsReply() {
        RouterKeeps(w, c.router, M.Deliver(msg));
      }
    case Add(_, _) =>
    case Persisted(_, _) =>
    case Close(_) =>
    case Tick(_, _) =>
    case Lookup(x, id, host, tool, args) =>
      if host in c.reg {
        RouterKeeps(w, c.router, M.Start(x, id, host, tool, args, c.reg[host].route));
      }
    case Step(e) =>
      if C.CallStep(e) {
        RouterKeeps(w, c.router, e);
      }
  }

  ghost predicate ProxyInputOk(w: World, p: ProxyId, st: P.State, ev: P.Event) {
    && (P.Admitted(st, ev) ==> Leads(w, ev.s, ev.first.hostname))
    && (ev.TakeReply? ==> Backed(w, ev.reply))
    && (ev.Request? ==> RequestOk(w, ev.req))
    && (ev.Request? && ev.req.ToolRequest? && ev.req.target !in st.reg ==>
          Refusal(p, ev.req.requestId, ev.req.target) in w.refused)
  }

  lemma ProxyKeeps(w: World, p: ProxyId, st: P.State, ev: P.Event)
    requires ProxyOk(w, st) && ProxyInputOk(w, p, st, ev)
    ensures ProxyOk(w, P.Apply(st, ev))
    ensures forall m :: P.Up(m) in P.Outputs(st, ev) ==> Backed(w, m)
    ensures forall s, m :: P.Down(s, m) in P.Outputs(st, ev) ==> DownOk(w, s, m)
  {
    ProxyStateKeeps(w, p, st, ev);
    ProxyOutputsOk(w, p, st, ev);
  }

  lemma ProxyStateKeeps(w: World, p: ProxyId, st: P.State, ev: P.Event)
    requires ProxyOk(w, st) && ProxyInputOk(w, p, st, ev)
    ensures ProxyOk(w, P.Apply(st, ev))
  {
  }

  lemma ProxyOutputsOk(w: World, p: ProxyId, st: P.State, ev: P.Event)
    requires ProxyOk(w, st) && ProxyInputOk(w, p, st, ev)
    ensures forall m :: P.Up(m) in P.Outputs(st, ev) ==> Backed(w, m)
    ensures forall s, m :: P.Down(s, m) in P.Outputs(st, ev) ==> DownOk(w, s, m)
  {
    if ev.Relay? && ev.s in st.handlers {
      assert HandlerOk(w, ev.s, st.handlers[ev.s]);
    }
  }

  ghost predicate AgentInputOk(w: World, a: AgentId, st: A.State, ev: A.Event) {
    && (ev.Dispatch? && ev.msg.ToolRequest? ==>
          && a in w.hosts && RequestOk(w, ev.msg) && ev.msg.target == w.hosts[a] && RegisteredAs(w, a, w.hosts[a]))
    && (ev.HandlerEnds? && A.Possible(st, ev.r, ev.finding) ==>
          Done(a, st.tasks[ev.r].id, st.tasks[ev.r].tool, st.tasks[ev.r].args, ev.finding) in w.done)
  }

  lemma AgentKeeps(w: World, a: AgentId, st: A.State, ev: A.Event)
    requires AgentOk(w, a, st) && AgentInputOk(w, a, st, ev)
    ensures AgentOk(w, a, A.Apply(st, ev))
    ensures forall m :: m in A.Outputs(st, ev) ==> Backed(w, m) && m.IsReply()
  {
    if ev.HandlerEnds? && A.Possible(st, ev.r, ev.finding) {
      var d := Done(a, st.tasks[ev.r].id, st.tasks[ev.r].tool, st.tasks[ev.r].args, ev.finding);
      assert A.ReplyTo(st.tasks[ev.r].id, st.tasks[ev.r].tool, ev.finding) == A.ReplyTo(d.id, d.tool, d.finding);
    }
  }

  // --- posting keeps the queues honest ---

  predicate CurrentOk(st: State) {
    forall n :: n in st.current ==> st.current[n] in st.world.links && st.world.links[st.current[n]].client == n
  }

  lemma PushUpKeeps(w: World, qs: map<StreamId, Queue>, s: StreamId, m: Message)
    requires QueuesOk(w, qs) && (s in qs ==> UpOk(w, s, m))
    ensures QueuesOk(w, PushUp(qs, s, m))
  {
    if s in qs {
      assert QueueOk(w, s, qs[s]);
      forall x | x in qs[s].up + [m] ensures UpOk(w, s, x) {
        assert x in qs[s].up || x == m;
      }
    }
  }

  lemma PushDownKeeps(w: World, qs: map<StreamId, Queue>, s: StreamId, m: Message)
    requires QueuesOk(w, qs) && (s in qs ==> DownOk(w, s, m))
    ensures QueuesOk(w, PushDown(qs, s, m))
  {
    if s in qs {
      assert QueueOk(w, s, qs[s]);
      forall x | x in qs[s].down + [m] ensures DownOk(w, s, x) {
        assert x in qs[s].down || x == m;
      }
    }
  }

  /** All of the invariant but the queues' current contents is untouched. */
  predicate SameButQueues(a: State, b: State) {
    b == a.(queues := b.queues)
  }

  lemma SendKeeps(st: State, node: Node, m: Message)
    requires QueuesOk(st.world, st.queues) && CurrentOk(st) && Backed(st.world, m)
    requires m.RegisterRequest? ==> !node.AgentNode?
    ensures QueuesOk(st.world, Send(st, node, m).queues) && SameButQueues(st, Send(st, node, m))
  {
    if node in st.current {
      PushUpKeeps(st.world, st.queues, st.current[node], m);
    }
  }

  lemma {:induction false} PostCenterKeeps(st: State, outs: seq<C.Output>)
    requires QueuesOk(st.world, st.queues)
    requires forall o :: o in outs ==> DownOk(st.world, o.s, o.msg)
    ensures QueuesOk(st.world, PostCenter(st, outs).queues) && SameButQueues(st, PostCenter(st, outs))
    decreases |outs|
  {
    if outs != [] {
      assert outs[0] in outs;
      PushDownKeeps(st.world, st.queues, outs[0].s, outs[0].msg);
      PostCenterKeeps(st.(queues := PushDown(st.queues, outs[0].s, outs[0].msg)), outs[1..]);
    }
  }

  lemma {:induction false} PostProxyKeeps(st: State, p: ProxyId, outs: seq<P.Output>)
    requires QueuesOk(st.world, st.queues) && CurrentOk(st)
    requires forall m :: P.Up(m) in outs ==> Backed(st.world, m)
    requires forall s, m :: P.Down(s, m) in outs ==> DownOk(st.world, s, m)
    ensures QueuesOk(st.world, PostProxy(st, p, outs).queues) && SameButQueues(st, PostProxy(st, p, outs))
    decreases |outs|
  {
    if outs != [] {
      assert outs[0] in outs;
      match outs[0] {
        case Up(m) =>
          SendKeeps(st, ProxyNode(p), m);
          PostProxyKeeps(Send(st, ProxyNode(p), m), p, outs[1..]);
        case Down(s, m) =>
          PushDownKeeps(st.world, st.queues, s, m);
          PostProxyKeeps(st.(queues := PushDown(st.queues, s, m)), p, outs[1..]);
      }
    }
  }

  lemma {:induction false} PostAgentKeeps(st: State, a: AgentId, outs: seq<Message>)
    requires QueuesOk(st.world, st.queues) && CurrentOk(st)
    requires forall m :: m in outs ==> Backed(st.world, m) && m.IsReply()
    ensures QueuesOk(st.world, PostAgent(st, a, outs).queues) && SameButQueues(st, PostAgent(st, a, outs))
    decreases |outs|
  {
    if outs != [] {
      assert outs[0] in outs;
      SendKeeps(st, AgentNode(a), outs[0]);
      PostAgentKeeps(Send(st, AgentNode(a), outs[0]), a, outs[1..]);
    }
  }

  lemma PopUpKeeps(w: World, qs: map<StreamId, Queue>, s: StreamId)
    requires QueuesOk(w, qs) && s in qs && qs[s].up != []
    ensures QueuesOk(w, PopUp(qs, s)) && UpOk(w, s, qs[s].up[0])
  {
    assert QueueOk(w, s, qs[s]);
    assert qs[s].up[0] in qs[s].up;
    forall x | x in qs[s].up[1..] ensures UpOk(w, s, x) { assert x in qs[s].up; }
  }

  lemma PopDownKeeps(w: World, qs: map<StreamId, Queue>, s: StreamId)
    requires QueuesOk(w, qs) && s in qs && qs[s].down != []
    ensures QueuesOk(w, PopDown(qs, s)) && DownOk(w, s, qs[s].down[0])
  {
    assert QueueOk(w, s, qs[s]);
    assert qs[s].down[0] in qs[s].down;
    forall x | x in qs[s].down[1..] ensures DownOk(w, s, x) { assert x in qs[s].down; }
  }

  // --- every step keeps the invariant ---

  ghost predicate StepOk(st: State, step: Step) {
    match step
    case CenterDoes(cev) => CenterInputOk(st.world, st.center, cev)
    case ProxyDoes(p, pev) => p in st.proxies ==> ProxyInputOk(st.world, p, st.proxies[p], pev)
    case AgentDoes(a, aev) => a in st.agents ==> AgentInputOk(st.world, a, st.agents[a], aev)
    case Nobody => true
  }

  lemma ActedKeeps(st: State, step: Step)
    requires Inv(st) && StepOk(st, step)
    ensures Inv(Acted(st, step))
  {
    match step
    case CenterDoes(cev) =>
      CenterKeeps(st.world, st.center, cev);
      PostCenterKeeps(st.(center := C.Apply(st.center, cev)), C.Outputs(st.center, cev));
    case ProxyDoes(p, pev) => if p in st.proxies { StepProxyKeeps(st, p, pev); }
    case AgentDoes(a, aev) => if a in st.agents { StepAgentKeeps(st, a, aev); }
    case Nobody =>
  }

  lemma StepProxyKeeps(st: State, p: ProxyId, ev: P.Event)
    requires Inv(st) && p in st.proxies && ProxyInputOk(st.world, p, st.proxies[p], ev)
    ensures Inv(StepProxy(st, p, ev))
  {
    ProxyKeeps(st.world, p, st.proxies[p], ev);
    PostProxyKeeps(st.(proxies := st.proxies[p := P.Apply(st.proxies[p], ev)]), p, P.Outputs(st.proxies[p], ev));
  }

  lemma StepAgentKeeps(st: State, a: AgentId, ev: A.Event)
    requires Inv(st) && a in st.agents && AgentInputOk(st.world, a, st.agents[a], ev)
    ensures Inv(StepAgent(st, a, ev))
  {
    AgentKeeps(st.world, a, st.agents[a], ev);
    PostAgentKeeps(st.(agents := st.agents[a := A.Apply(st.agents[a], ev)]), a, A.Outputs(st.agents[a], ev));
  }

  predicate FreshId(st: State, ev: Event) {
    ev.CenterMoves? && ev.cev.Lookup? ==> ev.cev.id !in st.world.issued
  }

  /** The past only grows, and stays honest. */
  lemma RecordedGrows(st: State, ev: Event)
    requires FreshId(st, ev)
    ensures Grows(st.world, Recorded(st, ev))
  {
  }

  lemma GrownIsOk(w: World, w': World)
    requires WorldOk(w) && Grows(w, w')
    requires forall d :: d in w'.done && d !in w.done ==> DoneOk(w, d)
    requires forall r :: r in w'.refused && r !in w.refused ==> RefusalOk(w, r)
    ensures WorldOk(w')
  {
  }

  lemma RecordedIsOk(st: State, ev: Event)
    requires Inv(st) && FreshId(st, ev)
    ensures WorldOk(Recorded(st, ev)) && Grows(st.world, Recorded(st, ev))
  {
    RecordedGrows(st, ev);
    if ReadsDown(st, ev) {
      PopDownKeeps(st.world, st.queues, ev.s);
    }
    if ev.AgentMoves? && ev.a in st.agents {
      assert AgentOk(st.world, ev.a, st.agents[ev.a]);
    }
    GrownIsOk(st.world, Recorded(st, ev));
  }

  lemma TakenKeeps(st: State, ev: Event)
    requires Inv(st) && FreshId(st, ev) && !OfStreams(ev)
    ensures Inv(Taken(st, ev))
  {
    RecordedIsOk(st, ev);
    InvGrows(st, Recorded(st, ev));
    var w := Recorded(st, ev);
    if ReadsUp(st, ev) {
      PopUpKeeps(w, st.queues, ev.s);
    } else if ReadsDown(st, ev) {
      PopDownKeeps(w, st.queues, ev.s);
    }
  }

  /** What a party is given to do is honest, given that the streams are. */
  lemma GivenIsOk(st: State, ev: Event)
    requires Inv(st) && FreshId(st, ev)
    ensures StepOk(Taken(st, ev), StepOf(st, ev))
  {
    if ReadsUp(st, ev) {
      ReadIsOk(st, ev);
    } else if ReadsDown(st, ev) {
      HeardIsOk(st, ev);
    }
  }

  lemma ReadIsOk(st: State, ev: Event)
    requires Inv(st) && ReadsUp(st, ev)
    ensures StepOk(Taken(st, ev), StepOf(st, ev))
  {
    PopUpKeeps(st.world, st.queues, ev.s);
    BackedGrows(st.world, Recorded(st, ev), st.queues[ev.s].up[0]);
    if ev.CenterAccepts? || ev.CenterReads? {
      CenterReadIsOk(st, ev);
    } else {
      ProxyReadIsOk(st, ev);
    }
  }

  lemma CenterReadIsOk(st: State, ev: Event)
    requires ReadsUp(st, ev) && (ev.CenterAccepts? || ev.CenterReads?)
    requires var m := st.queues[ev.s].up[0]; UpOk(st.world, ev.s, m) && Backed(Recorded(st, ev), m)
    ensures StepOk(Taken(st, ev), StepOf(st, ev))
  {
  }

  lemma ProxyReadIsOk(st: State, ev: Event)
    requires ReadsUp(st, ev) && (ev.ProxyAccepts? || ev.ProxyReads?)
    requires var m := st.queues[ev.s].up[0]; UpOk(st.world, ev.s, m) && Backed(Recorded(st, ev), m)
    ensures StepOk(Taken(st, ev), StepOf(st, ev))
  {
  }

  lemma HeardIsOk(st: State, ev: Event)
    requires Inv(st) && ReadsDown(st, ev)
    ensures StepOk(Taken(st, ev), StepOf(st, ev))
  {
    PopDownKeeps(st.world, st.queues, ev.s);
    if ev.AgentHears? && st.queues[ev.s].down[0].ToolRequest? { RegisteredOn(st.world, ev.s, ev.a); }
  }

  lemma RegisteredOn(w: World, s: StreamId, a: AgentId)
    requires s in w.links && w.links[s].client == AgentNode(a) && Enrolled(w, s)
    ensures a in w.hosts && RegisteredAs(w, a, w.hosts[a])
  {
    assert Registration(s, w.hosts[a]) in w.registered;
  }

  lemma DialKeeps(st: State, s: StreamId, client: Node, server: Node)
    requires Inv(st) && s !in st.world.links && MayDial(st, client, server)
    ensures Inv(Apply(st, Dial(s, client, server)))
  {
    var w := st.world.(links := st.world.links[s := Link(client, server)]);
    GrownIsOk(st.world, w);
    InvGrows(st, w);
    HelloIsOk(st, w, s, client);
  }

  lemma HelloIsOk(st: State, w: World, s: StreamId, client: Node)
    requires Hello(st, client).Some? && s in w.links && w.links[s].client == client && w.hosts == st.world.hosts
    ensures QueueOk(w, s, Queue([Hello(st, client).value], []))
  {
    assert UpOk(w, s, Hello(st, client).value);
  }

  lemma BreakKeeps(st: State, s: StreamId, keptUp: nat, keptDown: nat)
    requires Inv(st)
    ensures Inv(Apply(st, Break(s, keptUp, keptDown)))
  {
    if s in st.queues {
      var q := st.queues[s];
      assert QueueOk(st.world, s, q);
      var cut := Queue(Prefix(q.up, keptUp), Prefix(q.down, keptDown));
      forall m | m in cut.up ensures m in q.up { }
      forall m | m in cut.down ensures m in q.down { }
      assert QueueOk(st.world, s, cut);
    }
  }

  lemma StreamsKeep(st: State, ev: Event)
    requires Inv(st) && OfStreams(ev)
    ensures Inv(Apply(st, ev))
  {
    match ev
    case Dial(s, client, server) =>
      if s !in st.world.links && MayDial(st, client, server) { DialKeeps(st, s, client, server); }
    case Break(s, keptUp, keptDown) => BreakKeeps(st, s, keptUp, keptDown);
    case Beat(node, timestamp) => SendKeeps(st, node, Heartbeat(timestamp));
    case _ =>
  }

  lemma StepKeeps(st: State, ev: Event)
    requires Inv(st) && FreshId(st, ev)
    ensures Inv(Apply(st, ev))
  {
    if OfStreams(ev) {
      StreamsKeep(st, ev);
    } else {
      TakenKeeps(st, ev);
      GivenIsOk(st, ev);
      ActedKeeps(Taken(st, ev), StepOf(st, ev));
    }
  }

  lemma {:induction false} RunKeeps(st: State, es: seq<Event>)
    requires Inv(st) && FreshIds(st, es)
    ensures Inv(Run(st, es))
    decreases |es|
  {
    if es != [] {
      StepKeeps(st, es[0]);
      RunKeeps(Apply(st, es[0]), es[1..]);
    }
  }

  // --- the main result ---

  /** Handler run `d` is the work of call `call`: same id, tool and arguments, on
      an agent that has registered under the name of the call's target. */
  ghost predicate WorkOf(w: World, d: Done, call: M.Call) {
    && d in w.done
    && d.id == call.id && d.tool == call.tool && d.args == call.args
    && d.agent in w.hosts && w.hosts[d.agent] == call.host && RegisteredAs(w, d.agent, call.host)
  }

  /** And its reply is `m`. */
  ghost predicate AnswerOf(w: World, d: Done, call: M.Call, m: Message) {
    WorkOf(w, d, call) && m == A.ReplyTo(d.id, d.tool, d.finding)
  }

  /** Refusal `r` is a proxy's answer to the request of `call`. */
  predicate RefusalOf(w: World, r: Refusal, call: M.Call) {
    r in w.refused && r.id == call.id && r.target == call.host
  }

  ghost predicate Genuine(w: World, call: M.Call) {
    call.phase.Decided? || call.phase.Returned? ==>
      match call.phase.outcome
      case Result(json) => exists d :: WorkOf(w, d, call) && d.finding == A.Result(json)
      case AgentError(code, message) =>
        || (exists r :: RefusalOf(w, r, call) && P.Refusal(r.id, r.target) == ErrorResponse(call.id, code, message))
        || exists d :: AnswerOf(w, d, call, ErrorResponse(call.id, code, message))
      case UnexpectedReply => false
      case _ => true
  }

  /** End-to-end correlation. In every run with fresh request ids, over any mix of
      direct and proxied streams, reconnections, losses, cancellations and
      timeouts: what a call to host h returns was found by a handler run of that
      id, tool and arguments on an agent that had registered as h, or is the
      refusal of that very id by a proxy that did not hold h; and no call ever
      ends with an unexpected kind of reply. */
  lemma Correlation(hosts: map<AgentId, Host>, tools: set<string>, proxies: map<ProxyId, Host>, es: seq<Event>,
      c: M.CallId)
    requires FreshIds(Initial(hosts, tools, proxies), es)
    requires c in Run(Initial(hosts, tools, proxies), es).center.router.calls
    ensures var end := Run(Initial(hosts, tools, proxies), es);
            Genuine(end.world, end.center.router.calls[c])
  {
    RunKeeps(Initial(hosts, tools, proxies), es);
    var end := Run(Initial(hosts, tools, proxies), es);
    CallsAreGenuine(end.world, end.center.router.calls[c]);
  }

  lemma BackedWork(w: World, call: M.Call, m: Message)
    requires WorldOk(w) && CallOk(w, call) && Backed(w, m) && m.IsReply() && m.requestId == call.id
    ensures (exists r :: RefusalOf(w, r, call) && m == P.Refusal(r.id, r.target))
         || exists d :: AnswerOf(w, d, call, m)
  {
    if r :| r in w.refused && m == P.Refusal(r.id, r.target) {
      assert RefusalOk(w, r) && RefusalOf(w, r, call);
    } else {
      var d :| d in w.done && m == A.ReplyTo(d.id, d.tool, d.finding);
      assert DoneOk(w, d) && AnswerOf(w, d, call, m);
    }
  }

  lemma CallsAreGenuine(w: World, call: M.Call)
    requires WorldOk(w) && CallOk(w, call)
    ensures Genuine(w, call)
  {
    if call.phase.Decided? || call.phase.Returned? {
      match call.phase.outcome {
        case Result(json) => BackedWork(w, call, ToolResponse(call.id, json));
        case AgentError(code, message) => BackedWork(w, call, ErrorResponse(call.id, code, message));
        case _ =>
      }
    }
  }
}
