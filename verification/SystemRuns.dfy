/** The parts of the whole system each run on their own machine, so what holds in
    every run of a part holds in every run of the system. */
module SystemRuns {
  import opened Tunnel
  import opened System
  import C = Center
  import P = Proxy
  import A = Agent
  import M = RouterMachine

  // What a step is for center, for the proxy `p` and for the agent `a`.

  function OfCenter(step: Step): seq<C.Event> {
    if step.CenterDoes? then [step.cev] else []
  }

  function OfProxy(step: Step, p: ProxyId): seq<P.Event> {
    if step.ProxyDoes? && step.p == p then [step.pev] else []
  }

  function OfAgent(step: Step, a: AgentId): seq<A.Event> {
    if step.AgentDoes? && step.a == a then [step.aev] else []
  }

  function CenterPart(st: State, ev: Event): seq<C.Event> {
    OfCenter(StepOf(st, ev))
  }

  function ProxyPart(st: State, ev: Event, p: ProxyId): seq<P.Event> {
    OfProxy(StepOf(st, ev), p)
  }

  function AgentPart(st: State, ev: Event, a: AgentId): seq<A.Event> {
    OfAgent(StepOf(st, ev), a)
  }

  // --- sending leaves everything but the queues alone ---

  predicate OnlyQueued(a: State, b: State) {
    SameButQueues(a, b) && b.queues.Keys == a.queues.Keys
  }

  lemma SendOnlyQueues(st: State, node: Node, m: Message)
    ensures OnlyQueued(st, Send(st, node, m))
  {
  }

  lemma {:induction false} PostCenterOnlyQueues(st: State, outs: seq<C.Output>)
    ensures OnlyQueued(st, PostCenter(st, outs))
    decreases |outs|
  {
    if outs != [] {
      PostCenterOnlyQueues(st.(queues := PushDown(st.queues, outs[0].s, outs[0].msg)), outs[1..]);
    }
  }

  lemma {:induction false} PostProxyOnlyQueues(st: State, p: ProxyId, outs: seq<P.Output>)
    ensures OnlyQueued(st, PostProxy(st, p, outs))
    decreases |outs|
  {
    if outs != [] {
      match outs[0]
      case Up(m) =>
        SendOnlyQueues(st, ProxyNode(p), m);
        PostProxyOnlyQueues(Send(st, ProxyNode(p), m), p, outs[1..]);
      case Down(s, m) => PostProxyOnlyQueues(st.(queues := PushDown(st.queues, s, m)), p, outs[1..]);
    }
  }

  lemma {:induction false} PostAgentOnlyQueues(st: State, a: AgentId, outs: seq<Message>)
    ensures OnlyQueued(st, PostAgent(st, a, outs))
    decreases |outs|
  {
    if outs != [] {
      SendOnlyQueues(st, AgentNode(a), outs[0]);
      PostAgentOnlyQueues(Send(st, AgentNode(a), outs[0]), a, outs[1..]);
    }
  }

  // --- each party takes its own steps ---

  /** The parties after the step, the queues as they were. */
  function Stepped(st: State, step: Step): State {
    match step
    case CenterDoes(cev) => st.(center := C.Apply(st.center, cev))
    case ProxyDoes(p, pev) =>
      if p in st.proxies then st.(proxies := st.proxies[p := P.Apply(st.proxies[p], pev)]) else st
    case AgentDoes(a, aev) =>
      if a in st.agents then st.(agents := st.agents[a := A.Apply(st.agents[a], aev)]) else st
    case Nobody => st
  }

  lemma ActedIs(st: State, step: Step)
    ensures OnlyQueued(Stepped(st, step), Acted(st, step))
  {
    var next := Stepped(st, step);
    match step
    case CenterDoes(cev) => PostCenterOnlyQueues(next, C.Outputs(st.center, cev));
    case ProxyDoes(p, pev) => if p in st.proxies { PostProxyOnlyQueues(next, p, P.Outputs(st.proxies[p], pev)); }
    case AgentDoes(a, aev) => if a in st.agents { PostAgentOnlyQueues(next, a, A.Outputs(st.agents[a], aev)); }
    case Nobody =>
  }

  lemma CenterActs(st: State, step: Step)
    ensures Acted(st, step).center == C.Run(st.center, OfCenter(step))
  {
    ActedIs(st, step);
    if step.CenterDoes? { assert OfCenter(step)[1..] == []; }
  }

  lemma ProxyActs(st: State, step: Step, p: ProxyId)
    ensures Acted(st, step).proxies.Keys == st.proxies.Keys
    ensures p in st.proxies ==> Acted(st, step).proxies[p] == P.Run(st.proxies[p], OfProxy(step, p))
  {
    ActedIs(st, step);
    if step.ProxyDoes? && step.p == p { assert OfProxy(step, p)[1..] == []; }
  }

  lemma AgentActs(st: State, step: Step, a: AgentId)
    ensures Acted(st, step).agents.Keys == st.agents.Keys
    ensures a in st.agents ==> Acted(st, step).agents[a] == A.Run(st.agents[a], OfAgent(step, a))
  {
    ActedIs(st, step);
    if step.AgentDoes? && step.a == a { assert OfAgent(step, a)[1..] == []; }
  }

  predicate SameParts(a: State, b: State) {
    a.center == b.center && a.proxies == b.proxies && a.agents == b.agents
  }

  lemma RewiredLeavesParts(st: State, ev: Event)
    requires OfStreams(ev)
    ensures SameParts(st, Rewired(st, ev))
  {
  }

  /** Taking a message and recording the past touches no party. */
  lemma TakenLeavesParts(st: State, ev: Event)
    ensures SameParts(st, Taken(st, ev))
    ensures OfStreams(ev) ==> StepOf(st, ev).Nobody?
  {
    if OfStreams(ev) { RewiredLeavesParts(st, ev); }
  }

  /** A step of the system is a step of at most one party, and as its machine says. */
  lemma StepIs(st: State, ev: Event)
    ensures var next := Apply(st, ev);
            && next.center == C.Run(st.center, CenterPart(st, ev))
            && next.proxies.Keys == st.proxies.Keys && next.agents.Keys == st.agents.Keys
            && (forall p :: p in st.proxies ==> next.proxies[p] == P.Run(st.proxies[p], ProxyPart(st, ev, p)))
            && (forall a :: a in st.agents ==> next.agents[a] == A.Run(st.agents[a], AgentPart(st, ev, a)))
  {
    var mid, step := Taken(st, ev), StepOf(st, ev);
    TakenLeavesParts(st, ev);
    CenterActs(mid, step);
    ProxyActs(mid, step, 0);
    AgentActs(mid, step, 0);
    forall p | p in st.proxies ensures Apply(st, ev).proxies[p] == P.Run(st.proxies[p], ProxyPart(st, ev, p)) {
      ProxyActs(mid, step, p);
    }
    forall a | a in st.agents ensures Apply(st, ev).agents[a] == A.Run(st.agents[a], AgentPart(st, ev, a)) {
      AgentActs(mid, step, a);
    }
  }

  lemma OneProxySteps(st: State, ev: Event, p: ProxyId)
    requires p in st.proxies
    ensures p in Apply(st, ev).proxies && Apply(st, ev).proxies[p] == P.Run(st.proxies[p], ProxyPart(st, ev, p))
  {
    StepIs(st, ev);
  }

  lemma OneAgentSteps(st: State, ev: Event, a: AgentId)
    requires a in st.agents
    ensures a in Apply(st, ev).agents && Apply(st, ev).agents[a] == A.Run(st.agents[a], AgentPart(st, ev, a))
  {
    StepIs(st, ev);
  }

  /** The same streams, and the same node on each. */
  predicate SameWires(a: State, b: State) {
    a.queues.Keys == b.queues.Keys && a.current == b.current && a.world.links == b.world.links
  }

  lemma RecordedLinks(st: State, ev: Event)
    ensures Recorded(st, ev).links == st.world.links && st.world.issued.Keys <= Recorded(st, ev).issued.Keys
  {
  }

  lemma TakenKeepsWires(st: State, ev: Event)
    requires !OfStreams(ev)
    ensures SameWires(st, Taken(st, ev)) && Taken(st, ev).world == Recorded(st, ev)
  {
    RecordedLinks(st, ev);
  }

  lemma ActedKeepsWires(st: State, step: Step)
    ensures SameWires(st, Acted(st, step)) && Acted(st, step).world == st.world
  {
    ActedIs(st, step);
  }

  // --- invariants of the parts ---

  /** Every route in every registry leads to a handler that has not cleaned up,
      and every agent's cancel functions belong to unfinished requests. */
  ghost predicate PartsOk(st: State) {
    && C.RoutesLive(st.center)
    && (forall p :: p in st.proxies ==> P.RoutesLive(st.proxies[p]))
    && (forall a :: a in st.agents ==> A.CancelsLive(st.agents[a]))
  }

  lemma StepKeepsParts(st: State, ev: Event)
    requires PartsOk(st)
    ensures PartsOk(Apply(st, ev))
  {
    StepIs(st, ev);
    C.RoutesStayLive(st.center, CenterPart(st, ev));
    forall p | p in st.proxies ensures P.RoutesLive(Apply(st, ev).proxies[p]) {
      P.RoutesStayLive(st.proxies[p], ProxyPart(st, ev, p));
    }
    forall a | a in st.agents ensures A.CancelsLive(Apply(st, ev).agents[a]) {
      A.CancelFnsHoldUnfinished(st.agents[a], AgentPart(st, ev, a));
    }
  }

  lemma {:induction false} RunKeepsParts(st: State, es: seq<Event>)
    requires PartsOk(st)
    ensures PartsOk(Run(st, es))
    decreases |es|
  {
    if es != [] {
      StepKeepsParts(st, es[0]);
      RunKeepsParts(Apply(st, es[0]), es[1..]);
    }
  }

  /** In every reachable state of the whole system every record of center and of
      each proxy routes to a handler that has not finished its cleanup. */
  lemma RoutesLiveEverywhere(hosts: map<AgentId, Host>, tools: set<string>, proxies: map<ProxyId, Host>, es: seq<Event>)
    ensures PartsOk(Run(Initial(hosts, tools, proxies), es))
  {
    RunKeepsParts(Initial(hosts, tools, proxies), es);
  }

  /** The steps of center in a run of the system. */
  function CenterEvents(st: State, es: seq<Event>): seq<C.Event>
    decreases |es|
  {
    if es == [] then [] else CenterPart(st, es[0]) + CenterEvents(Apply(st, es[0]), es[1..])
  }

  /** What center does in a run of the system is a run of center. */
  lemma {:induction false} CenterRuns(st: State, es: seq<Event>)
    ensures Run(st, es).center == C.Run(st.center, CenterEvents(st, es))
    decreases |es|
  {
    if es != [] {
      StepIs(st, es[0]);
      CenterRuns(Apply(st, es[0]), es[1..]);
      var part, rest := CenterPart(st, es[0]), CenterEvents(Apply(st, es[0]), es[1..]);
      if part == [] {
        assert part + rest == rest;
      } else {
        assert part == [part[0]] && part[1..] == [];
        C.RunCons(st.center, part[0], rest);
      }
    }
  }

  // --- the router inside the system ---

  /** The steps of center's router in a run of the system. */
  function RouterEvents(st: State, es: seq<Event>): seq<M.Event>
    decreases |es|
  {
    if es == [] then [] else C.RouterRun(st.center, CenterPart(st, es[0])) + RouterEvents(Apply(st, es[0]), es[1..])
  }

  lemma RouterStepIs(st: State, ev: Event)
    ensures Apply(st, ev).center.router == M.Run(st.center.router, C.RouterRun(st.center, CenterPart(st, ev)))
  {
    StepIs(st, ev);
    C.CenterRunsTheRouter(st.center, CenterPart(st, ev));
  }

  lemma {:induction false} RouterRuns(st: State, es: seq<Event>)
    ensures Run(st, es).center.router == M.Run(st.center.router, RouterEvents(st, es))
    decreases |es|
  {
    if es != [] {
      RouterStepIs(st, es[0]);
      RouterRuns(Apply(st, es[0]), es[1..]);
      M.RunAppend(st.center.router, C.RouterRun(st.center, CenterPart(st, es[0])),
        RouterEvents(Apply(st, es[0]), es[1..]));
    }
  }

  /** The calls at center carry pairwise different ids, all of them issued. */
  ghost predicate IdsOk(st: State) {
    var r := st.center.router;
    && M.SlotsExact(r)
    && (forall c :: c in r.calls ==> r.calls[c].id in st.world.issued)
    && (forall c, d :: c in r.calls && d in r.calls && c != d ==> r.calls[c].id != r.calls[d].id)
  }

  /** At most one step of the router happens at a time, and it opens no taken id. */
  lemma StepIsSafe(st: State, ev: Event)
    requires IdsOk(st)
    ensures var es := C.RouterRun(st.center, CenterPart(st, ev));
            |es| <= 1 && M.Safe(st.center.router, es) && (es != [] ==> M.IdFree(st.center.router, es[0]))
  {
    var part := CenterPart(st, ev);
    if part != [] {
      assert part == [part[0]] && part[1..] == [];
      assert C.RouterRun(st.center, part) == C.RouterPart(st.center, part[0]) + [];
    }
  }

  /** The step of the router starts a call that was not there. */
  predicate Begins(st: State, e: M.Event) {
    e.Start? && e.c !in st.center.router.calls
  }

  /** Only a lookup of a known host starts a call, and it issues the id. */
  lemma IssuedAfter(st: State, ev: Event)
    ensures var issued := Apply(st, ev).world.issued;
            && st.world.issued.Keys <= issued.Keys
            && forall e :: e in C.RouterRun(st.center, CenterPart(st, ev)) && Begins(st, e) ==>
                 ev.CenterMoves? && ev.cev.Lookup? && e.id == ev.cev.id && e.id in issued
  {
    var part := CenterPart(st, ev);
    ActedKeepsWires(Taken(st, ev), StepOf(st, ev));
    if !OfStreams(ev) {
      TakenKeepsWires(st, ev);
      RecordedLinks(st, ev);
    }
    if part != [] {
      assert part == [part[0]] && part[1..] == [];
      assert C.RouterRun(st.center, part) == C.RouterPart(st.center, part[0]) + [];
    }
  }

  lemma CallIds(r: M.State, e: M.Event, c: M.CallId)
    requires c in M.Apply(r, e).calls
    ensures if c in r.calls
      then M.Apply(r, e).calls[c].id == r.calls[c].id else e.Start? && e.c == c && M.Apply(r, e).calls[c].id == e.id
  {
  }

  lemma StepKeepsIds(st: State, ev: Event)
    requires IdsOk(st) && FreshId(st, ev)
    ensures IdsOk(Apply(st, ev))
  {
    var es, r, next := C.RouterRun(st.center, CenterPart(st, ev)), st.center.router, Apply(st, ev);
    StepIsSafe(st, ev);
    RouterStepIs(st, ev);
    IssuedAfter(st, ev);
    M.SlotsStayExact(r, es);
    if es != [] {
      M.RunCons(r, es[0], []);
      assert es == [es[0]] + [] && next.center.router == M.Apply(r, es[0]);
      forall c | c in next.center.router.calls ensures CallIdIs(r, es[0], c, next.center.router.calls[c].id) {
        CallIds(r, es[0], c);
      }
    }
  }

  /** `id` is the id of `c`, old or just started. */
  predicate CallIdIs(r: M.State, e: M.Event, c: M.CallId, id: RequestId) {
    if c in r.calls then r.calls[c].id == id else e.Start? && e.c == c && e.id == id
  }

  lemma {:induction false} FreshIdsAreSafe(st: State, es: seq<Event>)
    requires IdsOk(st) && FreshIds(st, es)
    ensures M.Safe(st.center.router, RouterEvents(st, es)) && IdsOk(Run(st, es))
    decreases |es|
  {
    if es != [] {
      StepIsSafe(st, es[0]);
      StepKeepsIds(st, es[0]);
      RouterStepIs(st, es[0]);
      FreshIdsAreSafe(Apply(st, es[0]), es[1..]);
      M.SafeAppend(st.center.router, C.RouterRun(st.center, CenterPart(st, es[0])),
        RouterEvents(Apply(st, es[0]), es[1..]));
    }
  }

  /** In every run of the whole system in which no id is used twice, the pending
      map is exactly the calls in flight, and each call stands where it would with
      the router to itself: late, duplicate and unknown replies and broken streams
      of others do not show. */
  lemma CallsAreIsolated(hosts: map<AgentId, Host>, tools: set<string>, proxies: map<ProxyId, Host>, es: seq<Event>,
      c: M.CallId)
    requires FreshIds(Initial(hosts, tools, proxies), es)
    ensures var start := Initial(hosts, tools, proxies);
            && M.SlotsExact(Run(start, es).center.router)
            && Run(start, es).center.router == M.Run(M.EMPTY, RouterEvents(start, es))
            && M.Isolated(RouterEvents(start, es), c)
  {
    var start := Initial(hosts, tools, proxies);
    FreshIdsAreSafe(start, es);
    RouterRuns(start, es);
    M.Isolation(RouterEvents(start, es), c);
  }
}
