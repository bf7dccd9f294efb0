/** What a call does in the joined system: its request goes out on the wire, and
    from every reachable state in which its target is connected, directly or
    through a proxy, some continuation brings back what the handler found, and
    another one cancels the work. */
module Delivery {
  import opened Tunnel
  import opened System
  import opened SystemRuns
  import opened Recovery
  import opened RequestPaths
  import M = RouterMachine
  import C = Center
  import P = Proxy
  import A = Agent

  // --- a call sends its request ---

  function DownOf(st: State, s: StreamId): seq<Message> {
    if s in st.queues then st.queues[s].down else []
  }

  /** The step of a call. */
  function StepOfCall(e: M.Event): Event {
    CenterMoves(C.Step(e))
  }

  /** In whatever state a call is about to be sent on a stream that is there, its
      transmission puts exactly its request at the end of that stream, and nothing
      anywhere else. */
  lemma TransmitSends(st: State, c: M.CallId)
    requires M.In(st.center.router, c, M.Opened) && st.center.router.calls[c].route in st.queues
    ensures var call, next := st.center.router.calls[c], Apply(st, StepOfCall(M.Transmit(c, true)));
            && next.queues.Keys == st.queues.Keys
            && DownOf(next, call.route) ==
              DownOf(st, call.route) + [ToolRequest(call.id, call.tool, call.args, call.host)]
            && (forall s :: s != call.route ==> DownOf(next, s) == DownOf(st, s))
            && (forall s :: UpOf(next, s) == UpOf(st, s))
            && M.In(next.center.router, c, M.Waiting)
  {
    var call, cev := st.center.router.calls[c], C.Step(M.Transmit(c, true));
    var m := ToolRequest(call.id, call.tool, call.args, call.host);
    PostOne(st.(center := C.Apply(st.center, cev)), C.Down(call.route, m));
  }

  lemma PostOne(st: State, out: C.Output)
    ensures PostCenter(st, [out]) == st.(queues := PushDown(st.queues, out.s, out.msg))
  {
    assert [out][1..] == [];
  }

  // --- runs ---

  lemma {:induction false} RunAppend(st: State, a: seq<Event>, b: seq<Event>)
    ensures Run(st, a + b) == Run(Run(st, a), b)
    decreases |a|
  {
    if a == [] {
      assert a + b == b;
    } else {
      assert (a + b)[0] == a[0] && (a + b)[1..] == a[1..] + b;
      RunAppend(Apply(st, a[0]), a[1..], b);
    }
  }

  lemma RunOne(st: State, ev: Event)
    ensures Run(st, [ev]) == Apply(st, ev)
  {
    assert [ev][1..] == [];
  }

  lemma RunThen(st: State, ev: Event, es: seq<Event>)
    ensures Run(st, [ev] + es) == Run(Apply(st, ev), es)
  {
    assert ([ev] + es)[1..] == es;
  }

  // --- center reads a stream to its end ---

  predicate CenterServes(st: State, s: StreamId) {
    && s in st.queues && s in st.world.links && st.world.links[s].server == CenterNode
    && C.IsServing(st.center, s)
  }

  /** `b` is `a` with more heartbeat acks at the end. */
  predicate Acked(a: seq<Message>, b: seq<Message>) {
    |a| <= |b| && b[..|a|] == a && forall i :: |a| <= i < |b| ==> b[i].HeartbeatAck?
  }

  /** The calls stand as they did, but for replies that have come in. */
  predicate CallsKept(a: M.State, b: M.State) {
    && b.pending == a.pending && b.calls.Keys == a.calls.Keys
    && forall c :: c in a.calls ==> b.calls[c] == a.calls[c].(slot := b.calls[c].slot)
  }

  predicate RoutesKept(a: C.State, b: C.State) {
    && b.handlers == a.handlers
    && forall h :: h in a.reg ==> h in b.reg && b.reg[h].route == a.reg[h].route
  }

  predicate OthersKept(a: State, b: State, s: StreamId) {
    b.queues.Keys == a.queues.Keys && forall t :: t in a.queues && t != s ==> b.queues[t] == a.queues[t]
  }

  /** Center has read on `s`, and all else is as it was. */
  predicate CenterRead(a: State, b: State, s: StreamId) {
    && b == a.(center := b.center, queues := b.queues) && OthersKept(a, b, s)
    && RoutesKept(a.center, b.center) && CallsKept(a.center.router, b.center.router)
    && Acked(DownOf(a, s), DownOf(b, s))
  }

  lemma ReadIs(st: State, s: StreamId, now: int)
    requires CenterServes(st, s) && UpOf(st, s) != []
    ensures var cev := C.Receive(s, UpOf(st, s)[0], now);
            var next := st.(queues := PopUp(st.queues, s), center := C.Apply(st.center, cev));
            Apply(st, CenterReads(s, now)) == PostCenter(next, C.Outputs(st.center, cev))
  {
  }

  lemma ReadsPlainly(st: State, s: StreamId, now: int)
    requires CenterServes(st, s) && UpOf(st, s) != []
    requires var m := UpOf(st, s)[0]; m.RegisterRequest? ==> m.hostname in st.center.reg
    ensures var next := Apply(st, CenterReads(s, now));
            CenterServes(next, s) && CenterRead(st, next, s) && UpOf(next, s) == UpOf(st, s)[1..]
  {
    var m := UpOf(st, s)[0];
    ReadIs(st, s, now);
    if m.Heartbeat? {
      var next := st.(queues := PopUp(st.queues, s), center := C.Apply(st.center, C.Receive(s, m, now)));
      PostOne(next, C.Down(s, HeartbeatAck(m.timestamp)));
    }
  }

  /** What center makes of the first word of a host that it does not know, once
      the host is added and stored. */
  lemma AddingIs(st: C.State, s: StreamId, m: Message, now: int)
    requires C.IsServing(st, s) && m.RegisterRequest? && m.hostname !in st.reg
    ensures var heard := C.Apply(st, C.Receive(s, m, now));
            var added := C.Apply(heard, C.Add(s, now));
            C.Apply(added, C.Persisted(s, true)) == st.(reg := st.reg[m.hostname := C.RecordFor(m, s, now)])
  {
    var end := C.Apply(C.Apply(C.Apply(st, C.Receive(s, m, now)), C.Add(s, now)), C.Persisted(s, true));
    assert end.handlers == st.handlers;
  }

  /** A heartbeat is answered with its own time. */
  lemma HeartbeatIsAcked(st: State, s: StreamId, now: int)
    requires CenterServes(st, s) && UpOf(st, s) != [] && UpOf(st, s)[0].Heartbeat?
    ensures DownOf(Apply(st, CenterReads(s, now)), s) == DownOf(st, s) + [HeartbeatAck(UpOf(st, s)[0].timestamp)]
  {
    var m := UpOf(st, s)[0];
    ReadIs(st, s, now);
    PostOne(st.(queues := PopUp(st.queues, s), center := C.Apply(st.center, C.Receive(s, m, now))),
      C.Down(s, HeartbeatAck(m.timestamp)));
  }

  /** A host that center does not know is added and stored before it reads on. */
  lemma ReadsAndAdds(st: State, s: StreamId, now: int) returns (es: seq<Event>)
    requires CenterServes(st, s) && UpOf(st, s) != []
    requires var m := UpOf(st, s)[0]; m.RegisterRequest? && m.hostname !in st.center.reg
    ensures var end := Run(st, es);
            && CenterServes(end, s) && CenterRead(st, end, s) && UpOf(end, s) == UpOf(st, s)[1..]
            && UpOf(st, s)[0].hostname in end.center.reg && end.center.reg[UpOf(st, s)[0].hostname].route == s
  {
    var m := UpOf(st, s)[0];
    var add, persisted := CenterMoves(C.Add(s, now)), CenterMoves(C.Persisted(s, true));
    ReadIs(st, s, now);
    var one := Apply(st, CenterReads(s, now));
    es := [CenterReads(s, now)] + ([add] + [persisted]);
    RunThen(st, CenterReads(s, now), [add] + [persisted]);
    RunThen(one, add, [persisted]);
    RunOne(Apply(one, add), persisted);
    AddingIs(st.center, s, m, now);
    QuietMove(one, C.Add(s, now));
    QuietMove(Apply(one, add), C.Persisted(s, true));
    assert Run(st, es) == st.(queues := PopUp(st.queues, s),
      center := st.center.(reg := st.center.reg[m.hostname := C.RecordFor(m, s, now)]));
  }

  /** A step of center's own that sends nothing and looks nothing up. */
  lemma QuietMove(st: State, cev: C.Event)
    requires OwnCenterStep(cev) && !cev.Lookup? && C.Outputs(st.center, cev) == []
    ensures Apply(st, CenterMoves(cev)) == st.(center := C.Apply(st.center, cev))
  {
  }

  lemma CenterReadTrans(a: State, b: State, c: State, s: StreamId)
    requires CenterRead(a, b, s) && CenterRead(b, c, s)
    ensures CenterRead(a, c, s)
  {
    var down := DownOf(c, s);
    assert down[..|DownOf(a, s)|] == down[..|DownOf(b, s)|][..|DownOf(a, s)|];
    forall i | |DownOf(a, s)| <= i < |down| ensures down[i].HeartbeatAck? {
      if i < |DownOf(b, s)| { assert down[i] == DownOf(b, s)[i]; }
    }
  }

  /** Center can read a stream that it serves to its end. */
  lemma {:induction false} CenterDrains(st: State, s: StreamId, now: int) returns (es: seq<Event>)
    requires CenterServes(st, s)
    ensures var end := Run(st, es); CenterServes(end, s) && CenterRead(st, end, s) && UpOf(end, s) == []
    decreases |UpOf(st, s)|
  {
    es := [];
    if UpOf(st, s) != [] {
      var m := UpOf(st, s)[0];
      var first := [CenterReads(s, now)];
      if m.RegisterRequest? && m.hostname !in st.center.reg {
        first := ReadsAndAdds(st, s, now);
      } else {
        ReadsPlainly(st, s, now);
        RunOne(st, CenterReads(s, now));
      }
      var rest := CenterDrains(Run(st, first), s, now);
      es := first + rest;
      RunAppend(st, first, rest);
      CenterReadTrans(st, Run(st, first), Run(st, es), s);
    }
  }

  // --- center asks ---

  /** The call `c` waits for the answer to its request, and no reply is there. */
  predicate Asking(st: State, c: M.CallId, id: RequestId, h: Host, tool: string, args: string, route: StreamId) {
    && c in st.center.router.calls
    && st.center.router.calls[c] == M.Call(id, h, tool, args, route, M.Waiting, None)
    && id in st.center.router.pending && st.center.router.pending[id] == c
  }

  /** Neither the call nor its id is in use at center. */
  predicate Unused(st: State, c: M.CallId, id: RequestId) {
    c !in st.center.router.calls && id !in st.center.router.pending
  }

  /** Center with the call `c` waiting for an answer. */
  function WithCall(st: C.State, c: M.CallId, id: RequestId, h: Host, tool: string, args: string): C.State
    requires h in st.reg
  {
    var call := M.Call(id, h, tool, args, st.reg[h].route, M.Waiting, None);
    st.(router := M.State(st.router.pending[id := c], st.router.calls[c := call]))
  }

  lemma CallingIs(st: C.State, c: M.CallId, id: RequestId, h: Host, tool: string, args: string)
    requires c !in st.router.calls && h in st.reg
    ensures var started := C.Apply(st, C.Lookup(c, id, h, tool, args));
            var slotted := C.Apply(started, C.Step(M.Open(c)));
            && M.In(slotted.router, c, M.Opened)
            && slotted.router.calls[c] == M.Call(id, h, tool, args, st.reg[h].route, M.Opened, None)
            && C.Apply(slotted, C.Step(M.Transmit(c, true))) == WithCall(st, c, id, h, tool, args)
  {
    var started := C.Apply(st, C.Lookup(c, id, h, tool, args));
    assert started.router.calls[c] == M.Call(id, h, tool, args, st.reg[h].route, M.LookedUp, None);
    var slotted := C.Apply(started, C.Step(M.Open(c)));
    assert slotted.router.calls[c] == M.Call(id, h, tool, args, st.reg[h].route, M.Opened, None);
  }

  lemma TransmitIs(st: State, c: M.CallId)
    requires M.In(st.center.router, c, M.Opened)
    ensures var call, cev := st.center.router.calls[c], C.Step(M.Transmit(c, true));
            var m := ToolRequest(call.id, call.tool, call.args, call.host);
            Apply(st, CenterMoves(cev)) ==
              st.(center := C.Apply(st.center, cev), queues := PushDown(st.queues, call.route, m))
  {
    var call, cev := st.center.router.calls[c], C.Step(M.Transmit(c, true));
    var m := ToolRequest(call.id, call.tool, call.args, call.host);
    PostOne(st.(center := C.Apply(st.center, cev)), C.Down(call.route, m));
  }

  /** A call to a known host, up to its request being on the wire. */
  lemma Asks(st: State, c: M.CallId, id: RequestId, h: Host, tool: string, args: string) returns (es: seq<Event>)
    requires Unused(st, c, id) && h in st.center.reg
    ensures var m, end := ToolRequest(id, tool, args, h), Run(st, es);
            && end == st.(center := WithCall(st.center, c, id, h, tool, args), world := end.world,
              queues := PushDown(st.queues, st.center.reg[h].route, m))
            && end.world.links == st.world.links
  {
    var look, open, send := C.Lookup(c, id, h, tool, args), C.Step(M.Open(c)), C.Step(M.Transmit(c, true));
    var one := Apply(st, CenterMoves(look));
    assert one == st.(world := Issued(st, look), center := C.Apply(st.center, look));
    QuietMove(one, open);
    CallingIs(st.center, c, id, h, tool, args);
    TransmitIs(Apply(one, CenterMoves(open)), c);
    es := [CenterMoves(look)] + ([CenterMoves(open)] + [CenterMoves(send)]);
    RunThen(st, CenterMoves(look), [CenterMoves(open)] + [CenterMoves(send)]);
    RunThen(one, CenterMoves(open), [CenterMoves(send)]);
    RunOne(Apply(one, CenterMoves(open)), CenterMoves(send));
  }

  // --- an agent reads a stream ---

  predicate AgentOn(st: State, a: AgentId, s: StreamId) {
    && a in st.agents && s in st.queues && s in st.world.links && st.world.links[s].client == AgentNode(a)
    && AgentNode(a) in st.current && st.current[AgentNode(a)] == s
  }

  lemma {:induction false} Above(used: set<A.RunId>) returns (r: A.RunId)
    ensures forall x :: x in used ==> x < r
  {
    r := 0;
    if used != {} {
      var x :| x in used;
      r := Above(used - {x});
      assert forall y :: y in used ==> y == x || y in used - {x};
      r := if r <= x then x + 1 else r;
    }
  }

  lemma HearIs(st: State, a: AgentId, s: StreamId, r: A.RunId)
    requires AgentOn(st, a, s) && DownOf(st, s) != [] && r !in st.agents[a].tasks
    ensures Apply(st, AgentHears(a, s, r)) == st.(queues := PopDown(st.queues, s),
      agents := st.agents[a := A.Apply(st.agents[a], A.Dispatch(r, DownOf(st, s)[0]))])
  {
  }

  /** Agent `a` has read on `s`, and all else is as it was. */
  predicate AgentRead(a: State, b: State, agent: AgentId, s: StreamId) {
    && agent in a.agents && agent in b.agents
    && b == a.(agents := a.agents[agent := b.agents[agent]], queues := b.queues) && OthersKept(a, b, s)
    && UpOf(b, s) == UpOf(a, s) && b.agents[agent].tools == a.agents[agent].tools
  }

  /** An agent can read the first `n` messages of its stream. */
  lemma {:induction false} AgentDrains(st: State, a: AgentId, s: StreamId, n: nat) returns (es: seq<Event>)
    requires AgentOn(st, a, s) && n <= |DownOf(st, s)|
    ensures var end := Run(st, es);
            AgentOn(end, a, s) && AgentRead(st, end, a, s) && DownOf(end, s) == DownOf(st, s)[n..]
    decreases n
  {
    es := [];
    if n > 0 {
      var r := Above(st.agents[a].tasks.Keys);
      var next := Apply(st, AgentHears(a, s, r));
      HearIs(st, a, s, r);
      var rest := AgentDrains(next, a, s, n - 1);
      es := [AgentHears(a, s, r)] + rest;
      RunThen(st, AgentHears(a, s, r), rest);
    }
  }

  /** The request of the call has come to the agent, whose handler is at work on
      it as run `r`; a cancel of its id would reach it. */
  predicate AtWork(st: State, a: AgentId, r: A.RunId, id: RequestId, tool: string, args: string) {
    && a in st.agents && r in st.agents[a].tasks && st.agents[a].tasks[r] == A.Task(id, tool, args, false, A.Live)
    && id in st.agents[a].cancelFns && st.agents[a].cancelFns[id] == r
  }

  /** An agent with one request before it takes it up. */
  lemma TakesRequest(st: State, a: AgentId, s: StreamId, m: Message) returns (r: A.RunId, ev: Event)
    requires AgentOn(st, a, s) && DownOf(st, s) == [m] && m.ToolRequest?
    ensures var end := Apply(st, ev);
            && r !in st.agents[a].tasks && AtWork(end, a, r, m.requestId, m.tool, m.args)
            && AgentOn(end, a, s) && AgentRead(st, end, a, s) && DownOf(end, s) == []
  {
    r := Above(st.agents[a].tasks.Keys);
    ev := AgentHears(a, s, r);
    HearIs(st, a, s, r);
  }

  /** It reads what is before a request, and takes that up. */
  lemma RequestArrives(st: State, a: AgentId, s: StreamId, before: seq<Message>, m: Message)
    returns (r: A.RunId, es: seq<Event>)
    requires AgentOn(st, a, s) && DownOf(st, s) == before + [m] && m.ToolRequest?
    ensures var end := Run(st, es);
            && AtWork(end, a, r, m.requestId, m.tool, m.args)
            && AgentOn(end, a, s) && AgentRead(st, end, a, s) && DownOf(end, s) == []
  {
    var first := AgentDrains(st, a, s, |before|);
    var ev;
    r, ev := TakesRequest(Run(st, first), a, s, m);
    es := first + [ev];
    RunAppend(st, first, [ev]);
    RunOne(Run(st, first), ev);
  }

  // --- the answer, and the cancellation, at an agent ---

  /** Run `r` at the agent was the work of the request, and found this. */
  predicate Worked(st: State, a: AgentId, r: A.RunId, id: RequestId, tool: string, args: string, finding: A.Finding) {
    && a in st.agents && r in st.agents[a].tasks
    && st.agents[a].tasks[r] == A.Task(id, tool, args, false, A.Answered(finding))
  }

  predicate Stopped(st: State, a: AgentId, r: A.RunId, id: RequestId, tool: string, args: string) {
    && a in st.agents && r in st.agents[a].tasks
    && st.agents[a].tasks[r] == A.Task(id, tool, args, true, A.Live)
  }

  /** What the handler found, in the words of the wire. */
  lemma HandlerAnswers(st: State, a: AgentId, s: StreamId, r: A.RunId, id: RequestId, tool: string, args: string,
      finding: A.Finding)
    requires AgentOn(st, a, s) && AtWork(st, a, r, id, tool, args)
    requires finding.NoSuchTool? <==> tool !in st.agents[a].tools
    ensures var end := Apply(st, AgentMoves(a, A.HandlerEnds(r, finding)));
            && UpOf(end, s) == UpOf(st, s) + [A.ReplyTo(id, tool, finding)] && DownOf(end, s) == DownOf(st, s)
            && OthersKept(st, end, s) && AgentOn(end, a, s)
            && end == st.(world := end.world, agents := end.agents, queues := end.queues)
            && end.world.links == st.world.links
            && Worked(end, a, r, id, tool, args, finding)
  {
    var aev := A.HandlerEnds(r, finding);
    var next := Taken(st, AgentMoves(a, aev)).(agents := st.agents[a := A.Apply(st.agents[a], aev)]);
    assert [A.ReplyTo(id, tool, finding)][1..] == [];
    assert PostAgent(next, a, [A.ReplyTo(id, tool, finding)]) == Send(next, AgentNode(a), A.ReplyTo(id, tool, finding));
  }

  /** A cancel takes hold of the work. */
  lemma CancelArrives(st: State, a: AgentId, s: StreamId, r: A.RunId, q: A.RunId, id: RequestId, tool: string,
      args: string)
    requires AgentOn(st, a, s) && AtWork(st, a, r, id, tool, args) && DownOf(st, s) == [CancelRequest(id)]
    requires q !in st.agents[a].tasks
    ensures var end := Apply(st, AgentHears(a, s, q));
            AgentRead(st, end, a, s) && Stopped(end, a, r, id, tool, args)
  {
    HearIs(st, a, s, q);
  }

  // --- the end of the call at center ---

  predicate ReturnedWith(r: M.State, c: M.CallId, id: RequestId, h: Host, outcome: M.Outcome) {
    && c in r.calls && r.calls[c].id == id && r.calls[c].host == h && id !in r.pending
    && r.calls[c].phase == M.Returned(outcome)
  }

  /** What a call that got this answer returns. */
  predicate Returned(r: M.State, c: M.CallId, id: RequestId, h: Host, tool: string, finding: A.Finding) {
    match finding
    case Result(json) => ReturnedWith(r, c, id, h, M.Result(json))
    case ToolError(message) => ReturnedWith(r, c, id, h, M.AgentError("TOOL_ERROR", message))
    case NoSuchTool => ReturnedWith(r, c, id, h, M.AgentError("TOOL_NOT_FOUND", "tool \"" + tool + "\" not found"))
  }

  /** The router with the reply, and after its call has taken it and returned. */
  lemma ReturningIs(r: M.State, c: M.CallId, call: M.Call, reply: Message)
    requires c in r.calls && r.calls[c] == call && call.phase == M.Waiting && call.slot == None
    requires call.id in r.pending && r.pending[call.id] == c && reply.IsReply() && reply.requestId == call.id
    ensures var replied := M.Apply(r, M.Deliver(reply));
            var taken := M.Apply(replied, M.Take(c));
            ReturnedWith(M.Apply(taken, M.Return(c)), c, call.id, call.host, if reply.ToolResponse?
              then M.Result(reply.resultJson) else M.AgentError(reply.code, reply.message))
  {
    var replied := M.Apply(r, M.Deliver(reply));
    assert replied.calls[c] == call.(slot := Some(reply));
    var taken := M.Apply(replied, M.Take(c));
    assert taken.calls[c].phase == M.Decided(M.OutcomeOf(reply));
  }

  lemma ReplyIsRead(st: State, s: StreamId, reply: Message, now: int)
    requires CenterServes(st, s) && UpOf(st, s) == [reply] && reply.IsReply()
    ensures Apply(st, CenterReads(s, now)) == st.(queues := PopUp(st.queues, s),
      center := st.center.(router := M.Apply(st.center.router, M.Deliver(reply))))
  {
    ReadIs(st, s, now);
  }

  /** The reply reaches the call that asked, which returns with it. */
  lemma ReplyReturns(st: State, s: StreamId, c: M.CallId, id: RequestId, h: Host, tool: string, args: string,
      reply: Message, now: int)
    returns (es: seq<Event>)
    requires CenterServes(st, s) && UpOf(st, s) == [reply] && Asking(st, c, id, h, tool, args, s)
    requires reply.IsReply() && reply.requestId == id
    ensures var end := Run(st, es);
            && ReturnedWith(end.center.router, c, id, h, if reply.ToolResponse?
                 then M.Result(reply.resultJson) else M.AgentError(reply.code, reply.message))
            && end.agents == st.agents
  {
    var take, back := C.Step(M.Take(c)), C.Step(M.Return(c));
    ReplyIsRead(st, s, reply, now);
    var one := Apply(st, CenterReads(s, now));
    QuietMove(one, take);
    QuietMove(Apply(one, CenterMoves(take)), back);
    ReturningIs(st.center.router, c, st.center.router.calls[c], reply);
    es := [CenterReads(s, now)] + ([CenterMoves(take)] + [CenterMoves(back)]);
    RunThen(st, CenterReads(s, now), [CenterMoves(take)] + [CenterMoves(back)]);
    RunThen(one, CenterMoves(take), [CenterMoves(back)]);
    RunOne(Apply(one, CenterMoves(take)), CenterMoves(back));
  }

  /** The call has given up on its answer, and returns with that. */
  predicate GivenUp(r: M.State, c: M.CallId, id: RequestId, canceled: bool) {
    && c in r.calls && r.calls[c].id == id && id !in r.pending
    && r.calls[c].phase == M.Returned(if canceled then M.Canceled else M.TimedOut)
  }

  lemma GivingUpIs(r: M.State, c: M.CallId, id: RequestId, canceled: bool)
    requires c in r.calls && r.calls[c].phase == M.Waiting && r.calls[c].id == id
    ensures GivenUp(M.Apply(M.Apply(r, M.Expire(c, canceled)), M.Return(c)), c, id, canceled)
  {
  }

  /** When its time is up, or its caller gives up, the call says so on the wire. */
  lemma GivingUpSends(st: State, c: M.CallId, id: RequestId, h: Host, tool: string, args: string, route: StreamId,
      canceled: bool)
    returns (es: seq<Event>)
    requires Asking(st, c, id, h, tool, args, route)
    ensures var end := Run(st, es);
            && end.queues == PushDown(st.queues, route, CancelRequest(id))
            && end == st.(center := end.center, queues := end.queues)
            && end.center == st.center.(router := end.center.router)
            && GivenUp(end.center.router, c, id, canceled)
  {
    var cev, back := C.Step(M.Expire(c, canceled)), C.Step(M.Return(c));
    PostOne(st.(center := C.Apply(st.center, cev)), C.Down(route, CancelRequest(id)));
    var one := Apply(st, CenterMoves(cev));
    QuietMove(one, back);
    GivingUpIs(st.center.router, c, id, canceled);
    es := [CenterMoves(cev)] + [CenterMoves(back)];
    RunThen(st, CenterMoves(cev), [CenterMoves(back)]);
    RunOne(one, CenterMoves(back));
  }

  // --- an agent connected to center ---

  /** Center routes `h` over the stream `s` that it serves and agent `a` is on. */
  predicate Connected(st: State, h: Host, a: AgentId, s: StreamId) {
    && CenterServes(st, s) && AgentOn(st, a, s)
    && h in st.center.reg && st.center.reg[h].route == s
  }

  /** The call waits, its request is being worked on, and the stream is quiet. */
  predicate InProgress(st: State, h: Host, a: AgentId, s: StreamId, r: A.RunId, c: M.CallId, id: RequestId,
      tool: string, args: string)
  {
    && Connected(st, h, a, s) && AtWork(st, a, r, id, tool, args) && Asking(st, c, id, h, tool, args, s)
    && st.queues[s] == Queue([], [])
  }

  /** The request of a call comes to the agent's handler. */
  lemma DirectArrives(st: State, h: Host, a: AgentId, s: StreamId, c: M.CallId, id: RequestId, tool: string,
      args: string)
    returns (r: A.RunId, es: seq<Event>)
    requires Connected(st, h, a, s) && Unused(st, c, id)
    ensures InProgress(Run(st, es), h, a, s, r, c, id, tool, args)
    ensures Run(st, es).agents[a].tools == st.agents[a].tools
  {
    var m := ToolRequest(id, tool, args, h);
    var read := CenterDrains(st, s, 0);
    var one := Run(st, read);
    var asked := Asks(one, c, id, h, tool, args);
    var two := Run(one, asked);
    var heard;
    r, heard := RequestArrives(two, a, s, DownOf(one, s), m);
    es := read + (asked + heard);
    RunAppend(st, read, asked + heard);
    RunAppend(one, asked, heard);
  }

  lemma DirectAnswer(st: State, h: Host, a: AgentId, s: StreamId, r: A.RunId, c: M.CallId, id: RequestId, tool: string,
      args: string, finding: A.Finding)
    returns (es: seq<Event>)
    requires InProgress(st, h, a, s, r, c, id, tool, args)
    requires finding.NoSuchTool? <==> tool !in st.agents[a].tools
    ensures var end := Run(st, es);
            Returned(end.center.router, c, id, h, tool, finding) && Worked(end, a, r, id, tool, args, finding)
  {
    var ends := AgentMoves(a, A.HandlerEnds(r, finding));
    HandlerAnswers(st, a, s, r, id, tool, args, finding);
    var back := ReplyReturns(Apply(st, ends), s, c, id, h, tool, args, A.ReplyTo(id, tool, finding), 0);
    es := [ends] + back;
    RunThen(st, ends, back);
  }

  /** A call to a connected agent can come back, with exactly what the handler of
      its request finds there. */
  lemma DirectDelivery(st: State, h: Host, a: AgentId, s: StreamId, c: M.CallId, id: RequestId, tool: string,
      args: string, finding: A.Finding)
    returns (r: A.RunId, es: seq<Event>)
    requires Connected(st, h, a, s) && Unused(st, c, id)
    requires finding.NoSuchTool? <==> tool !in st.agents[a].tools
    ensures var end := Run(st, es);
            Returned(end.center.router, c, id, h, tool, finding) && Worked(end, a, r, id, tool, args, finding)
  {
    var arrive;
    r, arrive := DirectArrives(st, h, a, s, c, id, tool, args);
    var back := DirectAnswer(Run(st, arrive), h, a, s, r, c, id, tool, args, finding);
    es := arrive + back;
    RunAppend(st, arrive, back);
  }

  lemma DirectStop(st: State, h: Host, a: AgentId, s: StreamId, r: A.RunId, c: M.CallId, id: RequestId, tool: string,
      args: string, canceled: bool)
    returns (es: seq<Event>)
    requires InProgress(st, h, a, s, r, c, id, tool, args)
    ensures var end := Run(st, es);
            GivenUp(end.center.router, c, id, canceled) && Stopped(end, a, r, id, tool, args)
  {
    var expire := GivingUpSends(st, c, id, h, tool, args, s, canceled);
    var next := Run(st, expire);
    var q := Above(next.agents[a].tasks.Keys);
    CancelArrives(next, a, s, r, q, id, tool, args);
    es := expire + [AgentHears(a, s, q)];
    RunAppend(st, expire, [AgentHears(a, s, q)]);
    RunOne(next, AgentHears(a, s, q));
  }

  /** Or its deadline passes, or its caller gives up, and the work is canceled. */
  lemma DirectCancel(st: State, h: Host, a: AgentId, s: StreamId, c: M.CallId, id: RequestId, tool: string,
      args: string, canceled: bool)
    returns (r: A.RunId, es: seq<Event>)
    requires Connected(st, h, a, s) && Unused(st, c, id)
    ensures var end := Run(st, es);
            GivenUp(end.center.router, c, id, canceled) && Stopped(end, a, r, id, tool, args)
  {
    var arrive;
    r, arrive := DirectArrives(st, h, a, s, c, id, tool, args);
    var stop := DirectStop(Run(st, arrive), h, a, s, r, c, id, tool, args, canceled);
    es := arrive + stop;
    RunAppend(st, arrive, stop);
  }

  // --- how an agent comes to be connected ---

  /** A free stream, and an agent that is named `h`. */
  predicate MayConnect(st: State, h: Host, a: AgentId, s: StreamId) {
    && a in st.agents && a in st.world.hosts && st.world.hosts[a] == h
    && s !in st.world.links
  }

  /** The agent has dialled `server`, and its first message is on the way. */
  lemma Dials(st: State, h: Host, a: AgentId, s: StreamId, server: Node) returns (es: seq<Event>)
    requires MayConnect(st, h, a, s) && MayDial(st, AgentNode(a), server)
    ensures var end := Run(st, es);
            && AgentOn(end, a, s) && end.world.links == st.world.links[s := Link(AgentNode(a), server)]
            && end.queues == st.queues[s := Queue([RegisterRequest(h, NodeType.Agent, [], Info("", "", ""))], [])]
            && end == st.(world := end.world, queues := end.queues, current := st.current[AgentNode(a) := s])
  {
    var dial, attach := Dial(s, AgentNode(a), server), Attach(AgentNode(a), s);
    es := [dial] + [attach];
    RunThen(st, dial, [attach]);
    RunOne(Apply(st, dial), attach);
  }

  lemma AdmissionIs(st: C.State, s: StreamId, h: Host, first: Message, now: int)
    requires s !in st.handlers && first.RegisterRequest? && first.hostname == h
    ensures var accepted := C.Apply(st, C.Accept(s, first, true, true, now));
            && C.Outputs(st, C.Accept(s, first, true, true, now)) == []
            && C.Outputs(accepted, C.Ack(s, true)) == [C.Down(s, RegisterAck(true))]
            && C.Apply(accepted, C.Ack(s, true)) ==
              st.(reg := st.reg[h := C.RecordFor(first, s, now)], handlers := st.handlers[s := C.Serving(h)])
  {
    var accepted := C.Apply(st, C.Accept(s, first, true, true, now));
    assert C.Apply(accepted, C.Ack(s, true)).handlers == st.handlers[s := C.Serving(h)];
  }

  /** Center lets in the node whose first message it finds. */
  lemma LetsInAtCenter(st: State, s: StreamId, m: Message, now: int) returns (es: seq<Event>)
    requires Readable(st, s, CenterNode) && st.queues[s] == Queue([m], []) && m.RegisterRequest?
    requires s !in st.center.handlers
    ensures var end := Run(st, es);
            && end == st.(world := end.world, center := end.center,
              queues := st.queues[s := Queue([], [RegisterAck(true)])])
            && end.world.links == st.world.links && end.center.router == st.center.router
            && CenterServes(end, s) && m.hostname in end.center.reg && end.center.reg[m.hostname].route == s
  {
    var accept, ack := CenterAccepts(s, true, true, now), CenterMoves(C.Ack(s, true));
    AdmissionIs(st.center, s, m.hostname, m, now);
    var one := Apply(st, accept);
    assert one == st.(world := Recorded(st, accept), queues := PopUp(st.queues, s),
      center := C.Apply(st.center, C.Accept(s, m, true, true, now)));
    PostOne(one.(center := C.Apply(one.center, C.Ack(s, true))), C.Down(s, RegisterAck(true)));
    var popped := PopUp(st.queues, s);
    assert popped[s] == Queue([], []) && popped[s].down + [RegisterAck(true)] == [RegisterAck(true)];
    assert PushDown(popped, s, RegisterAck(true)) == st.queues[s := Queue([], [RegisterAck(true)])];
    es := [accept] + [ack];
    RunThen(st, accept, [ack]);
    RunOne(one, ack);
  }

  /** An agent that dials center and is let in is connected. */
  lemma Connects(st: State, h: Host, a: AgentId, s: StreamId, now: int) returns (es: seq<Event>)
    requires MayConnect(st, h, a, s) && s !in st.center.handlers
    ensures Connected(Run(st, es), h, a, s) && DownOf(Run(st, es), s) == [RegisterAck(true)]
    ensures Run(st, es).center.router == st.center.router && Run(st, es).agents == st.agents
  {
    var dialled := Dials(st, h, a, s, CenterNode);
    var one := Run(st, dialled);
    var entered := LetsInAtCenter(one, s, UpOf(one, s)[0], now);
    es := dialled + entered;
    RunAppend(st, dialled, entered);
  }

  /** A node that center does not let in, for want of a token or of the store, is
      told so, and center has nothing of it. */
  lemma IsRefused(st: State, s: StreamId, m: Message, authOk: bool, persistOk: bool, now: int)
    requires Readable(st, s, CenterNode) && UpOf(st, s)[0] == m && m.RegisterRequest? && s !in st.center.handlers
    requires !authOk || !persistOk
    ensures var end := Apply(st, CenterAccepts(s, authOk, persistOk, now));
            && DownOf(end, s) == DownOf(st, s) + [RegisterAck(false)]
            && end.center == st.center.(handlers := st.center.handlers[s := C.Finished])
  {
    var cev := C.Accept(s, m, authOk, persistOk, now);
    PostOne(st.(queues := PopUp(st.queues, s), center := C.Apply(st.center, cev)), C.Down(s, RegisterAck(false)));
  }
}
