/** The same for a target behind a proxy: requests, replies and cancellations pass
    through it, whatever it was about when the call came. */
module RelayedDelivery {
  import opened Tunnel
  import opened System
  import opened SystemRuns
  import opened Recovery
  import opened RequestPaths
  import opened Delivery
  import M = RouterMachine
  import C = Center
  import P = Proxy
  import A = Agent

  // --- single steps of a proxy ---

  function WithProxy(st: State, p: ProxyId, pst: P.State): State {
    st.(proxies := st.proxies[p := pst])
  }

  lemma SaysNothing(st: State, p: ProxyId, pev: P.Event)
    requires p in st.proxies && P.Outputs(st.proxies[p], pev) == []
    ensures StepProxy(st, p, pev) == WithProxy(st, p, P.Apply(st.proxies[p], pev))
  {
  }

  lemma SaysDown(st: State, p: ProxyId, pev: P.Event, s: StreamId, m: Message)
    requires p in st.proxies && P.Outputs(st.proxies[p], pev) == [P.Down(s, m)]
    ensures StepProxy(st, p, pev) ==
      WithProxy(st, p, P.Apply(st.proxies[p], pev)).(queues := PushDown(st.queues, s, m))
  {
    var next := WithProxy(st, p, P.Apply(st.proxies[p], pev));
    assert [P.Down(s, m)][1..] == [];
    assert PostProxy(next, p, [P.Down(s, m)]) == next.(queues := PushDown(next.queues, s, m));
  }

  lemma SaysUp(st: State, p: ProxyId, pev: P.Event, m: Message)
    requires p in st.proxies && P.Outputs(st.proxies[p], pev) == [P.Up(m)]
    ensures StepProxy(st, p, pev) == Send(WithProxy(st, p, P.Apply(st.proxies[p], pev)), ProxyNode(p), m)
  {
    var next := WithProxy(st, p, P.Apply(st.proxies[p], pev));
    assert [P.Up(m)][1..] == [];
    assert PostProxy(next, p, [P.Up(m)]) == Send(next, ProxyNode(p), m);
  }

  lemma MoveIs(st: State, p: ProxyId, pev: P.Event)
    requires p in st.proxies && OwnProxyStep(pev)
    ensures Apply(st, ProxyMoves(p, pev)) == StepProxy(st, p, pev)
  {
  }

  /** The proxy `p` is on the stream `t` to center. */
  predicate Upward(st: State, p: ProxyId, t: StreamId) {
    && p in st.proxies && t in st.queues && t in st.world.links
    && st.world.links[t] == Link(ProxyNode(p), CenterNode)
    && ProxyNode(p) in st.current && st.current[ProxyNode(p)] == t
  }

  lemma HearingIs(st: State, p: ProxyId, t: StreamId)
    requires Upward(st, p, t) && st.proxies[p].reader.Idle? && DownOf(st, t) != []
    ensures var m := DownOf(st, t)[0];
            var popped := st.(world := Refused(st, p, m), queues := PopDown(st.queues, t));
            Apply(st, ProxyHears(p, t)) ==
              if ProxyHearing(m).Some? then StepProxy(popped, p, ProxyHearing(m).value) else popped
  {
  }

  // --- the reader of a proxy comes to rest ---

  predicate ReaderAsks(pst: P.State) {
    pst.reader.Tracking? || pst.reader.Forwarding? ==> pst.reader.req.ToolRequest?
  }

  /** `b` is `a` but for the messages, what proxy `p` has pending and is about to
      do, and the refusals of the past. */
  predicate ReaderMoved(a: State, b: State, p: ProxyId) {
    && p in a.proxies && p in b.proxies
    && b == a.(world := b.world, proxies := a.proxies[p := b.proxies[p]], queues := b.queues)
    && b.world.links == a.world.links && b.queues.Keys == a.queues.Keys
    && b.proxies[p] == a.proxies[p].(pending := b.proxies[p].pending, reader := b.proxies[p].reader)
  }

  /** The streams of `p` to its nodes are others than `t`. */
  predicate Apart(pst: P.State, t: StreamId) {
    forall h :: h in pst.reg ==> pst.reg[h].route != t
  }

  /** What the reader is about lies apart from `t`. */
  predicate ReaderApart(pst: P.State, t: StreamId) {
    Apart(pst, t) && (pst.reader.Tracking? || pst.reader.Forwarding? ==> pst.reader.route != t)
  }

  function NextStep(reader: P.Reader): P.Event
    requires !reader.Idle?
  {
    match reader
    case Tracking(_, _) => P.Store
    case Forwarding(_, _) => P.Forward(true)
    case Canceling(_, _) => P.ForwardCancel
  }

  function StepsLeft(reader: P.Reader): nat {
    match reader case Idle => 0 case Tracking(_, _) => 2 case _ => 1
  }

  /** One step of the reader on its way back to reading. */
  lemma ReaderStepOn(st: State, p: ProxyId, t: StreamId)
    requires p in st.proxies && !st.proxies[p].reader.Idle?
    requires ReaderAsks(st.proxies[p]) && ReaderApart(st.proxies[p], t)
    ensures var end := Apply(st, ProxyMoves(p, NextStep(st.proxies[p].reader)));
            && ReaderMoved(st, end, p) && ReaderAsks(end.proxies[p]) && ReaderApart(end.proxies[p], t)
            && StepsLeft(end.proxies[p].reader) < StepsLeft(st.proxies[p].reader)
            && DownOf(end, t) == DownOf(st, t)
  {
    var pev := NextStep(st.proxies[p].reader);
    MoveIs(st, p, pev);
    var outs := P.Outputs(st.proxies[p], pev);
    if outs == [] {
      SaysNothing(st, p, pev);
    } else {
      assert outs == [P.Down(outs[0].s, outs[0].msg)];
      SaysDown(st, p, pev, outs[0].s, outs[0].msg);
    }
  }

  lemma ReaderMovedTrans(a: State, b: State, c: State, p: ProxyId)
    requires ReaderMoved(a, b, p) && ReaderMoved(b, c, p)
    ensures ReaderMoved(a, c, p)
  {
  }

  /** The reader finishes what it is about. */
  lemma {:induction false} ReaderRests(st: State, p: ProxyId, t: StreamId) returns (es: seq<Event>)
    requires p in st.proxies && ReaderAsks(st.proxies[p]) && ReaderApart(st.proxies[p], t)
    ensures var end := Run(st, es);
            ReaderMoved(st, end, p) && end.proxies[p].reader.Idle? && DownOf(end, t) == DownOf(st, t)
    decreases StepsLeft(st.proxies[p].reader)
  {
    es := [];
    if st.proxies[p].reader.Idle? {
      assert st.proxies[p := st.proxies[p]] == st.proxies;
    } else {
      var first := ProxyMoves(p, NextStep(st.proxies[p].reader));
      ReaderStepOn(st, p, t);
      var rest := ReaderRests(Apply(st, first), p, t);
      es := [first] + rest;
      RunThen(st, first, rest);
    }
  }

  // --- a proxy reads the stream from center ---

  /** It takes one message. */
  lemma HearsOne(st: State, p: ProxyId, t: StreamId)
    requires Upward(st, p, t) && st.proxies[p].reader.Idle? && DownOf(st, t) != [] && Apart(st.proxies[p], t)
    ensures var end := Apply(st, ProxyHears(p, t));
            && ReaderMoved(st, end, p) && DownOf(end, t) == DownOf(st, t)[1..]
            && ReaderAsks(end.proxies[p]) && ReaderApart(end.proxies[p], t)
  {
    var m := DownOf(st, t)[0];
    HearingIs(st, p, t);
    if ProxyHearing(m).Some? {
      var popped := st.(world := Refused(st, p, m), queues := PopDown(st.queues, t));
      var pev := ProxyHearing(m).value;
      var outs := P.Outputs(st.proxies[p], pev);
      if outs == [] {
        SaysNothing(popped, p, pev);
      } else {
        assert outs == [P.Up(outs[0].msg)];
        SaysUp(popped, p, pev, outs[0].msg);
      }
    } else {
      assert st.proxies[p := st.proxies[p]] == st.proxies;
    }
  }

  /** A proxy at rest can read all that center has sent it. */
  lemma {:induction false} ProxyHearsAll(st: State, p: ProxyId, t: StreamId) returns (es: seq<Event>)
    requires Upward(st, p, t) && st.proxies[p].reader.Idle? && Apart(st.proxies[p], t)
    ensures var end := Run(st, es);
            && ReaderMoved(st, end, p) && end.proxies[p].reader.Idle? && DownOf(end, t) == []
    decreases |DownOf(st, t)|
  {
    es := [];
    if DownOf(st, t) == [] {
      assert st.proxies[p := st.proxies[p]] == st.proxies;
    } else {
      var hear := ProxyHears(p, t);
      HearsOne(st, p, t);
      var one := Apply(st, hear);
      var settle := ReaderRests(one, p, t);
      var two := Run(one, settle);
      ReaderMovedTrans(st, one, two, p);
      var rest := ProxyHearsAll(two, p, t);
      ReaderMovedTrans(st, two, Run(two, rest), p);
      es := [hear] + (settle + rest);
      RunThen(st, hear, settle + rest);
      RunAppend(one, settle, rest);
    }
  }

  /** From wherever its reader is. */
  lemma ReaderIsQuiet(st: State, p: ProxyId, t: StreamId) returns (es: seq<Event>)
    requires Upward(st, p, t) && ReaderAsks(st.proxies[p]) && ReaderApart(st.proxies[p], t)
    ensures ReaderMoved(st, Run(st, es), p) && Run(st, es).proxies[p].reader.Idle? && DownOf(Run(st, es), t) == []
  {
    var rest := ReaderRests(st, p, t);
    var heard := ProxyHearsAll(Run(st, rest), p, t);
    es := rest + heard;
    RunAppend(st, rest, heard);
    ReaderMovedTrans(st, Run(st, rest), Run(st, es), p);
  }

  // --- a proxy reads the stream of a node ---

  predicate ProxyServes(st: State, p: ProxyId, s: StreamId) {
    && p in st.proxies && s in st.queues && s in st.world.links && st.world.links[s].server == ProxyNode(p)
    && P.IsServing(st.proxies[p], s)
  }

  predicate SameRoutes(a: P.State, b: P.State) {
    b.reg.Keys == a.reg.Keys && forall h :: h in a.reg ==> b.reg[h].route == a.reg[h].route
  }

  /** Proxy `p` has read on `s`: `b` is `a` but for the messages and what it has
      pending, and its hosts have their routes; nothing has gone down on `t`. */
  predicate NodeRead(a: State, b: State, p: ProxyId, t: StreamId) {
    && p in a.proxies && p in b.proxies
    && b == a.(proxies := a.proxies[p := b.proxies[p]], queues := b.queues) && b.queues.Keys == a.queues.Keys
    && b.proxies[p] == a.proxies[p].(reg := b.proxies[p].reg, pending := b.proxies[p].pending)
    && SameRoutes(a.proxies[p], b.proxies[p]) && DownOf(b, t) == DownOf(a, t)
  }

  lemma ProxyReadIs(st: State, p: ProxyId, s: StreamId, now: int)
    requires ProxyServes(st, p, s) && UpOf(st, s) != []
    ensures var pev, popped := ProxyReading(s, UpOf(st, s)[0], now), st.(queues := PopUp(st.queues, s));
            Apply(st, ProxyReads(p, s, now)) == if pev.Some? then StepProxy(popped, p, pev.value) else popped
  {
  }

  lemma ReadsBeat(st: State, p: ProxyId, s: StreamId, t: StreamId, now: int)
    requires Upward(st, p, t) && ProxyServes(st, p, s) && UpOf(st, s) != [] && UpOf(st, s)[0].Heartbeat?
    ensures var end := Apply(st, ProxyReads(p, s, now));
            NodeRead(st, end, p, t) && UpOf(end, s) == UpOf(st, s)[1..]
  {
    var m, popped := UpOf(st, s)[0], st.(queues := PopUp(st.queues, s));
    var pev := P.Beat(s, m.timestamp, now);
    ProxyReadIs(st, p, s, now);
    var next := WithProxy(popped, p, P.Apply(st.proxies[p], pev));
    var outs, acked := P.Outputs(st.proxies[p], pev),
      next.(queues := PushDown(next.queues, s, HeartbeatAck(m.timestamp)));
    assert PostProxy(next, p, outs) == PostProxy(acked, p, outs[1..]);
    if |outs| == 2 {
      assert outs[1..] == [outs[1]] && outs[1].Up? && [outs[1]][1..] == [];
      assert PostProxy(acked, p, [outs[1]]) == Send(acked, ProxyNode(p), outs[1].msg);
    }
  }

  /** A reply is taken up and passed on, and the handler reads on. */
  lemma RelaysReply(st: State, p: ProxyId, s: StreamId, t: StreamId, now: int) returns (es: seq<Event>)
    requires Upward(st, p, t) && ProxyServes(st, p, s) && UpOf(st, s) != [] && UpOf(st, s)[0].IsReply()
    ensures var end := Run(st, es);
            && NodeRead(st, end, p, t) && UpOf(end, s) == UpOf(st, s)[1..]
            && UpOf(end, t) == UpOf(st, t) + [UpOf(st, s)[0]]
  {
    var m, popped := UpOf(st, s)[0], st.(queues := PopUp(st.queues, s));
    var take, relay := ProxyReads(p, s, now), ProxyMoves(p, P.Relay(s));
    var pst := P.Apply(st.proxies[p], P.TakeReply(s, m));
    ProxyReadIs(st, p, s, now);
    SaysNothing(popped, p, P.TakeReply(s, m));
    var one := Apply(st, take);
    MoveIs(one, p, P.Relay(s));
    SaysUp(one, p, P.Relay(s), m);
    RelayedIs(st.proxies[p], s, m);
    es := [take] + [relay];
    RunThen(st, take, [relay]);
    RunOne(one, relay);
  }

  lemma RelayedIs(pst: P.State, s: StreamId, m: Message)
    requires P.IsServing(pst, s) && m.IsReply()
    ensures var taken := P.Apply(pst, P.TakeReply(s, m));
            && P.Outputs(taken, P.Relay(s)) == [P.Up(m)]
            && P.Apply(taken, P.Relay(s)) == pst.(pending := pst.pending - {m.requestId})
  {
    assert P.Apply(P.Apply(pst, P.TakeReply(s, m)), P.Relay(s)).handlers == pst.handlers;
  }

  lemma NodeReadTrans(a: State, b: State, c: State, p: ProxyId, t: StreamId)
    requires NodeRead(a, b, p, t) && NodeRead(b, c, p, t)
    ensures NodeRead(a, c, p, t)
  {
  }

  /** It takes one message. */
  lemma ReadsOne(st: State, p: ProxyId, s: StreamId, t: StreamId) returns (es: seq<Event>)
    requires Upward(st, p, t) && ProxyServes(st, p, s) && UpOf(st, s) != []
    ensures NodeRead(st, Run(st, es), p, t) && UpOf(Run(st, es), s) == UpOf(st, s)[1..]
  {
    if UpOf(st, s)[0].IsReply() {
      es := RelaysReply(st, p, s, t, 0);
    } else {
      es := [ProxyReads(p, s, 0)];
      RunOne(st, es[0]);
      if UpOf(st, s)[0].Heartbeat? {
        ReadsBeat(st, p, s, t, 0);
      } else {
        ProxyReadIs(st, p, s, 0);
        assert st.proxies[p := st.proxies[p]] == st.proxies;
      }
    }
  }

  /** A proxy can read the stream of a node that it serves to its end. */
  lemma {:induction false} ProxyReadsAll(st: State, p: ProxyId, s: StreamId, t: StreamId) returns (es: seq<Event>)
    requires Upward(st, p, t) && ProxyServes(st, p, s)
    ensures NodeRead(st, Run(st, es), p, t) && UpOf(Run(st, es), s) == []
    decreases |UpOf(st, s)|
  {
    es := [];
    if UpOf(st, s) == [] {
      assert st.proxies[p := st.proxies[p]] == st.proxies;
    } else {
      var first := ReadsOne(st, p, s, t);
      var rest := ProxyReadsAll(Run(st, first), p, s, t);
      es := first + rest;
      RunAppend(st, first, rest);
      NodeReadTrans(st, Run(st, first), Run(st, es), p, t);
    }
  }

  // --- a target behind a proxy ---

  /** Center routes `h` over the stream `t` that it serves and proxy `p` is on; the
      proxy routes it over the stream `s` that it serves and agent `a` is on. */
  predicate Linked(st: State, h: Host, p: ProxyId, t: StreamId, a: AgentId, s: StreamId) {
    && Upward(st, p, t) && CenterServes(st, t) && h in st.center.reg && st.center.reg[h].route == t
    && ProxyServes(st, p, s) && AgentOn(st, a, s) && h in st.proxies[p].reg && st.proxies[p].reg[h].route == s
  }

  /** The proxy reads, and nothing is on the way but heartbeat acks from center. */
  predicate Settled(st: State, p: ProxyId, t: StreamId, s: StreamId) {
    && p in st.proxies && st.proxies[p].reader.Idle? && Apart(st.proxies[p], t)
    && UpOf(st, s) == [] && UpOf(st, t) == [] && Acked([], DownOf(st, t))
  }

  lemma ProxySettles(st: State, h: Host, p: ProxyId, t: StreamId, a: AgentId, s: StreamId) returns (es: seq<Event>)
    requires Linked(st, h, p, t, a, s) && ReaderAsks(st.proxies[p]) && ReaderApart(st.proxies[p], t)
    ensures var end := Run(st, es);
            && Linked(end, h, p, t, a, s) && end.proxies[p].reader.Idle? && Apart(end.proxies[p], t)
            && UpOf(end, s) == [] && DownOf(end, t) == []
            && end.center == st.center && end.agents == st.agents
  {
    var quiet := ReaderIsQuiet(st, p, t);
    var read := ProxyReadsAll(Run(st, quiet), p, s, t);
    es := quiet + read;
    RunAppend(st, quiet, read);
  }

  lemma Settles(st: State, h: Host, p: ProxyId, t: StreamId, a: AgentId, s: StreamId, c: M.CallId, id: RequestId)
    returns (es: seq<Event>)
    requires Linked(st, h, p, t, a, s) && ReaderAsks(st.proxies[p]) && ReaderApart(st.proxies[p], t)
    requires Unused(st, c, id)
    ensures var end := Run(st, es);
            && Linked(end, h, p, t, a, s) && Settled(end, p, t, s) && Unused(end, c, id)
            && end.agents == st.agents
  {
    var settled := ProxySettles(st, h, p, t, a, s);
    var one := Run(st, settled);
    var read := CenterDrains(one, t, 0);
    es := settled + read;
    RunAppend(st, settled, read);
  }

  // --- a request passes the proxy ---

  /** Acks from center mean nothing to a proxy. */
  lemma {:induction false} AcksPass(st: State, p: ProxyId, t: StreamId, n: nat) returns (es: seq<Event>)
    requires Upward(st, p, t) && st.proxies[p].reader.Idle? && n <= |DownOf(st, t)|
    requires forall i :: 0 <= i < n ==> DownOf(st, t)[i].HeartbeatAck?
    ensures var end := Run(st, es);
            && end == st.(queues := end.queues) && OthersKept(st, end, t)
            && UpOf(end, t) == UpOf(st, t) && DownOf(end, t) == DownOf(st, t)[n..]
    decreases n
  {
    es := [];
    if n > 0 {
      var next := Apply(st, ProxyHears(p, t));
      assert DownOf(st, t)[0].HeartbeatAck?;
      HearingIs(st, p, t);
      assert next == st.(queues := PopDown(st.queues, t));
      var rest := AcksPass(next, p, t, n - 1);
      es := [ProxyHears(p, t)] + rest;
      RunThen(st, ProxyHears(p, t), rest);
    }
  }

  lemma HandlingIs(pst: P.State, m: Message)
    requires pst.reader.Idle? && m.ToolRequest? && m.target in pst.reg
    ensures var tracking := P.Apply(pst, P.Request(m));
            var forwarding := P.Apply(tracking, P.Store);
            && P.Outputs(pst, P.Request(m)) == [] && P.Outputs(tracking, P.Store) == []
            && P.Outputs(forwarding, P.Forward(true)) == [P.Down(pst.reg[m.target].route, m)]
            && P.Apply(forwarding, P.Forward(true)) == pst.(pending := pst.pending[m.requestId := m.target])
  {
  }

  /** The request goes on to the node, and the proxy remembers where. */
  lemma RequestPasses(st: State, p: ProxyId, t: StreamId, m: Message) returns (es: seq<Event>)
    requires Upward(st, p, t) && st.proxies[p].reader.Idle? && DownOf(st, t) == [m]
    requires m.ToolRequest? && m.target in st.proxies[p].reg
    ensures Run(st, es) ==
      WithProxy(st, p, st.proxies[p].(pending := st.proxies[p].pending[m.requestId := m.target])).(
        queues := PushDown(PopDown(st.queues, t), st.proxies[p].reg[m.target].route, m))
  {
    var pst, popped := st.proxies[p], st.(queues := PopDown(st.queues, t));
    var hear, store, forward := ProxyHears(p, t), ProxyMoves(p, P.Store), ProxyMoves(p, P.Forward(true));
    HandlingIs(pst, m);
    HearingIs(st, p, t);
    SaysNothing(popped, p, P.Request(m));
    var one := Apply(st, hear);
    MoveIs(one, p, P.Store);
    SaysNothing(one, p, P.Store);
    var two := Apply(one, store);
    MoveIs(two, p, P.Forward(true));
    SaysDown(two, p, P.Forward(true), pst.reg[m.target].route, m);
    es := [hear] + ([store] + [forward]);
    RunThen(st, hear, [store] + [forward]);
    RunThen(one, store, [forward]);
    RunOne(two, forward);
  }

  lemma CancelingIs(pst: P.State, id: RequestId)
    requires pst.reader.Idle? && id in pst.pending && pst.pending[id] in pst.reg
    ensures var claimed := P.Apply(pst, P.Claim(id));
            && P.Outputs(pst, P.Claim(id)) == []
            && P.Outputs(claimed, P.ForwardCancel) == [P.Down(pst.reg[pst.pending[id]].route, CancelRequest(id))]
            && P.Apply(claimed, P.ForwardCancel) == pst.(pending := pst.pending - {id})
  {
  }

  /** A cancel follows its request. */
  lemma CancelPasses(st: State, p: ProxyId, t: StreamId, id: RequestId) returns (es: seq<Event>)
    requires Upward(st, p, t) && st.proxies[p].reader.Idle? && DownOf(st, t) == [CancelRequest(id)]
    requires id in st.proxies[p].pending && st.proxies[p].pending[id] in st.proxies[p].reg
    ensures Run(st, es) ==
      WithProxy(st, p, st.proxies[p].(pending := st.proxies[p].pending - {id})).(queues :=
        PushDown(PopDown(st.queues, t), st.proxies[p].reg[st.proxies[p].pending[id]].route, CancelRequest(id)))
  {
    var pst, popped := st.proxies[p], st.(queues := PopDown(st.queues, t));
    var hear, forward := ProxyHears(p, t), ProxyMoves(p, P.ForwardCancel);
    CancelingIs(pst, id);
    HearingIs(st, p, t);
    SaysNothing(popped, p, P.Claim(id));
    var one := Apply(st, hear);
    MoveIs(one, p, P.ForwardCancel);
    SaysDown(one, p, P.ForwardCancel, pst.reg[pst.pending[id]].route, CancelRequest(id));
    es := [hear] + [forward];
    RunThen(st, hear, [forward]);
    RunOne(one, forward);
  }

  // --- a call to a target behind a proxy ---

  /** The call waits, its request is being worked on, the proxy remembers it, and
      nothing is on the way. */
  predicate Underway(st: State, h: Host, p: ProxyId, t: StreamId, a: AgentId, s: StreamId, r: A.RunId, c: M.CallId,
      id: RequestId, tool: string, args: string)
  {
    && Linked(st, h, p, t, a, s) && AtWork(st, a, r, id, tool, args) && Asking(st, c, id, h, tool, args, t)
    && st.queues[s] == Queue([], []) && st.queues[t] == Queue([], [])
    && st.proxies[p].reader.Idle? && id in st.proxies[p].pending && st.proxies[p].pending[id] == h
  }

  /** The request has passed the proxy. */
  lemma Passes(st: State, h: Host, p: ProxyId, t: StreamId, a: AgentId, s: StreamId, c: M.CallId, id: RequestId,
      tool: string, args: string)
    returns (es: seq<Event>)
    requires Linked(st, h, p, t, a, s) && Settled(st, p, t, s) && Unused(st, c, id)
    ensures var end := Run(st, es);
            && Linked(end, h, p, t, a, s) && Asking(end, c, id, h, tool, args, t)
            && st.queues.Keys == end.queues.Keys && end.queues[t] == Queue([], [])
            && end.queues[s] == Queue([], DownOf(st, s) + [ToolRequest(id, tool, args, h)])
            && end.proxies[p].reader.Idle? && id in end.proxies[p].pending && end.proxies[p].pending[id] == h
            && end.agents == st.agents
  {
    var m := ToolRequest(id, tool, args, h);
    var asked := Asks(st, c, id, h, tool, args);
    var one := Run(st, asked);
    var acks := AcksPass(one, p, t, |DownOf(st, t)|);
    var two := Run(one, acks);
    var passed := RequestPasses(two, p, t, m);
    es := asked + (acks + passed);
    RunAppend(st, asked, acks + passed);
    RunAppend(one, acks, passed);
  }

  lemma Arrives(st: State, h: Host, p: ProxyId, t: StreamId, a: AgentId, s: StreamId, c: M.CallId, id: RequestId,
      tool: string, args: string)
    returns (r: A.RunId, es: seq<Event>)
    requires Linked(st, h, p, t, a, s) && ReaderAsks(st.proxies[p]) && ReaderApart(st.proxies[p], t)
    requires Unused(st, c, id)
    ensures Underway(Run(st, es), h, p, t, a, s, r, c, id, tool, args)
    ensures Run(st, es).agents[a].tools == st.agents[a].tools
  {
    var settled := Settles(st, h, p, t, a, s, c, id);
    var one := Run(st, settled);
    var passed := Passes(one, h, p, t, a, s, c, id, tool, args);
    var two := Run(one, passed);
    var heard;
    r, heard := RequestArrives(two, a, s, DownOf(one, s), ToolRequest(id, tool, args, h));
    es := settled + (passed + heard);
    RunAppend(st, settled, passed + heard);
    RunAppend(one, passed, heard);
  }

  lemma Answers(st: State, h: Host, p: ProxyId, t: StreamId, a: AgentId, s: StreamId, r: A.RunId, c: M.CallId,
      id: RequestId, tool: string, args: string, finding: A.Finding)
    returns (es: seq<Event>)
    requires Underway(st, h, p, t, a, s, r, c, id, tool, args)
    requires finding.NoSuchTool? <==> tool !in st.agents[a].tools
    ensures var end := Run(st, es);
            Returned(end.center.router, c, id, h, tool, finding) && Worked(end, a, r, id, tool, args, finding)
  {
    var ends := AgentMoves(a, A.HandlerEnds(r, finding));
    HandlerAnswers(st, a, s, r, id, tool, args, finding);
    var one := Apply(st, ends);
    var relayed := RelaysReply(one, p, s, t, 0);
    var two := Run(one, relayed);
    var back := ReplyReturns(two, t, c, id, h, tool, args, A.ReplyTo(id, tool, finding), 0);
    es := [ends] + (relayed + back);
    RunThen(st, ends, relayed + back);
    RunAppend(one, relayed, back);
  }

  lemma Stops(st: State, h: Host, p: ProxyId, t: StreamId, a: AgentId, s: StreamId, r: A.RunId, c: M.CallId,
      id: RequestId, tool: string, args: string, canceled: bool)
    returns (es: seq<Event>)
    requires Underway(st, h, p, t, a, s, r, c, id, tool, args)
    ensures var end := Run(st, es);
            GivenUp(end.center.router, c, id, canceled) && Stopped(end, a, r, id, tool, args)
  {
    var expire := GivingUpSends(st, c, id, h, tool, args, t, canceled);
    var one := Run(st, expire);
    var passed := CancelPasses(one, p, t, id);
    var two := Run(one, passed);
    var q := Above(two.agents[a].tasks.Keys);
    CancelArrives(two, a, s, r, q, id, tool, args);
    es := expire + (passed + [AgentHears(a, s, q)]);
    RunAppend(st, expire, passed + [AgentHears(a, s, q)]);
    RunAppend(one, passed, [AgentHears(a, s, q)]);
    RunOne(two, AgentHears(a, s, q));
  }

  // --- in every reachable state ---

  /** The streams of a proxy end at it, and its reader holds requests. */
  ghost predicate Ends(st: State) {
    forall p :: p in st.proxies ==> ProxyStreams(st.world, p, st.proxies[p]) && ReaderAsks(st.proxies[p])
  }

  lemma ProxyEnds(w: World, p: ProxyId, pst: P.State, part: seq<P.Event>)
    requires |part| <= 1 && ProxyStreams(w, p, pst) && ReaderAsks(pst) && P.RoutesLive(pst)
    requires forall pev :: pev in part && pev.Accept? ==> pev.s in w.links && w.links[pev.s].server == ProxyNode(p)
    ensures ProxyStreams(w, p, P.Run(pst, part)) && ReaderAsks(P.Run(pst, part))
  {
    if part != [] {
      assert part[0] in part && part[1..] == [];
      StreamsStep(w, p, pst, part[0]);
    }
  }

  /** A proxy accepts only streams that lead to it. */
  lemma AcceptsOwn(st: State, ev: Event, p: ProxyId)
    ensures forall pev :: pev in ProxyPart(st, ev, p) && pev.Accept? ==>
      pev.s in st.world.links && st.world.links[pev.s].server == ProxyNode(p)
  {
  }

  lemma OneEndsStep(st: State, ev: Event, p: ProxyId)
    requires PartsOk(st) && p in st.proxies && ProxyStreams(st.world, p, st.proxies[p]) && ReaderAsks(st.proxies[p])
    ensures p in Apply(st, ev).proxies
    ensures ProxyStreams(Apply(st, ev).world, p, Apply(st, ev).proxies[p]) && ReaderAsks(Apply(st, ev).proxies[p])
  {
    LinksStay(st, ev);
    OneProxySteps(st, ev, p);
    AcceptsOwn(st, ev, p);
    assert ProxyStreams(Apply(st, ev).world, p, st.proxies[p]);
    ProxyEnds(Apply(st, ev).world, p, st.proxies[p], ProxyPart(st, ev, p));
  }

  lemma EndsStep(st: State, ev: Event)
    requires PartsOk(st) && Ends(st)
    ensures Ends(Apply(st, ev))
  {
    StepIs(st, ev);
    forall p | p in st.proxies
      ensures ProxyStreams(Apply(st, ev).world, p, Apply(st, ev).proxies[p]) && ReaderAsks(Apply(st, ev).proxies[p])
    {
      OneEndsStep(st, ev, p);
    }
  }

  lemma {:induction false} RunKeepsEnds(st: State, es: seq<Event>)
    requires PartsOk(st) && Ends(st)
    ensures Ends(Run(st, es))
    decreases |es|
  {
    if es != [] {
      EndsStep(st, es[0]);
      StepKeepsParts(st, es[0]);
      RunKeepsEnds(Apply(st, es[0]), es[1..]);
    }
  }

  lemma ReachableIsApart(st: State, p: ProxyId, t: StreamId)
    requires Reachable(st) && Upward(st, p, t)
    ensures ReaderAsks(st.proxies[p]) && ReaderApart(st.proxies[p], t)
  {
    var hosts, tools, proxies, before :| st == Run(Initial(hosts, tools, proxies), before);
    RunKeepsEnds(Initial(hosts, tools, proxies), before);
    RunKeepsParts(Initial(hosts, tools, proxies), before);
    ApartFrom(st.world, p, st.proxies[p], t);
  }

  lemma ApartFrom(w: World, p: ProxyId, pst: P.State, t: StreamId)
    requires ProxyStreams(w, p, pst) && P.RoutesLive(pst) && t in w.links && w.links[t].server == CenterNode
    ensures ReaderApart(pst, t)
  {
  }

  /** From every reachable state in which a proxy links center to an agent, a call
      under a free id can come back with exactly what the handler of its request
      finds there, whatever is on the streams and whatever the proxy is about. */
  lemma RelayedDelivery(st: State, h: Host, p: ProxyId, t: StreamId, a: AgentId, s: StreamId, c: M.CallId,
      id: RequestId, tool: string, args: string, finding: A.Finding)
    returns (r: A.RunId, es: seq<Event>)
    requires Reachable(st) && Linked(st, h, p, t, a, s) && Unused(st, c, id)
    requires finding.NoSuchTool? <==> tool !in st.agents[a].tools
    ensures var end := Run(st, es);
            Returned(end.center.router, c, id, h, tool, finding) && Worked(end, a, r, id, tool, args, finding)
  {
    ReachableIsApart(st, p, t);
    var arrive;
    r, arrive := Arrives(st, h, p, t, a, s, c, id, tool, args);
    var back := Answers(Run(st, arrive), h, p, t, a, s, r, c, id, tool, args, finding);
    es := arrive + back;
    RunAppend(st, arrive, back);
  }

  /** Or its deadline passes, or its caller gives up, and the work behind the proxy
      is canceled. */
  lemma RelayedCancel(st: State, h: Host, p: ProxyId, t: StreamId, a: AgentId, s: StreamId, c: M.CallId,
      id: RequestId, tool: string, args: string, canceled: bool)
    returns (r: A.RunId, es: seq<Event>)
    requires Reachable(st) && Linked(st, h, p, t, a, s) && Unused(st, c, id)
    ensures var end := Run(st, es);
            GivenUp(end.center.router, c, id, canceled) && Stopped(end, a, r, id, tool, args)
  {
    ReachableIsApart(st, p, t);
    var arrive;
    r, arrive := Arrives(st, h, p, t, a, s, c, id, tool, args);
    var stop := Stops(Run(st, arrive), h, p, t, a, s, r, c, id, tool, args, canceled);
    es := arrive + stop;
    RunAppend(st, arrive, stop);
  }

  // --- how an agent comes to be linked ---

  lemma AdmittingIs(pst: P.State, s: StreamId, first: Message, now: int)
    requires s !in pst.handlers && first.RegisterRequest?
    ensures var accepted := P.Apply(pst, P.Accept(s, first, true, now));
            var end := P.Apply(accepted, P.Ack(s, true));
            && P.Outputs(pst, P.Accept(s, first, true, now)) == []
            && P.Outputs(accepted, P.Ack(s, true)) == [P.Down(s, RegisterAck(true)),
              P.Up(RegisterRequest(first.hostname, first.nodeType, [pst.name] + first.path, first.info))]
            && P.IsServing(end, s) && first.hostname in end.reg && end.reg[first.hostname].route == s
  {
  }

  lemma PostTwo(st: State, p: ProxyId, s: StreamId, down: Message, up: Message)
    ensures PostProxy(st, p, [P.Down(s, down), P.Up(up)]) ==
      Send(st.(queues := PushDown(st.queues, s, down)), ProxyNode(p), up)
  {
    var outs, next := [P.Down(s, down), P.Up(up)], st.(queues := PushDown(st.queues, s, down));
    assert outs[1..] == [P.Up(up)] && [P.Up(up)][1..] == [];
    assert PostProxy(next, p, [P.Up(up)]) == Send(next, ProxyNode(p), up);
  }

  /** The proxy lets the agent in, and says so to center. */
  lemma LetsIn(st: State, h: Host, p: ProxyId, t: StreamId, s: StreamId, now: int) returns (es: seq<Event>)
    requires Upward(st, p, t) && s !in st.proxies[p].handlers && s in st.world.links && s != t
    requires st.world.links[s].server == ProxyNode(p)
    requires s in st.queues && UpOf(st, s) == [RegisterRequest(h, NodeType.Agent, [], Info("", "", ""))]
    ensures var end := Run(st, es);
            && Upward(end, p, t) && ProxyServes(end, p, s) && h in end.proxies[p].reg
            && end.proxies[p].reg[h].route == s && end.queues.Keys == st.queues.Keys
            && UpOf(end, t) ==
              UpOf(st, t) + [RegisterRequest(h, NodeType.Agent, [st.proxies[p].name], Info("", "", ""))]
            && end == st.(world := end.world, proxies := end.proxies, queues := end.queues)
            && end.world.links == st.world.links
  {
    var first := RegisterRequest(h, NodeType.Agent, [], Info("", "", ""));
    var up := RegisterRequest(h, NodeType.Agent, [st.proxies[p].name], Info("", "", ""));
    var accept, ack := ProxyAccepts(p, s, true, now), ProxyMoves(p, P.Ack(s, true));
    AdmittingIs(st.proxies[p], s, first, now);
    assert [st.proxies[p].name] + [] == [st.proxies[p].name];
    SaysNothing(st.(world := Recorded(st, accept), queues := PopUp(st.queues, s)), p, P.Accept(s, first, true, now));
    var one := Apply(st, accept);
    MoveIs(one, p, P.Ack(s, true));
    PostTwo(WithProxy(one, p, P.Apply(one.proxies[p], P.Ack(s, true))), p, s, RegisterAck(true), up);
    es := [accept] + [ack];
    RunThen(st, accept, [ack]);
    RunOne(one, ack);
  }

  /** An agent that dials a proxy which has told center all it had to say is
      linked, when center did not know its name. */
  lemma Links(st: State, h: Host, p: ProxyId, t: StreamId, a: AgentId, s: StreamId, now: int) returns (es: seq<Event>)
    requires MayConnect(st, h, a, s) && Upward(st, p, t) && s !in st.proxies[p].handlers && UpOf(st, t) == []
    requires CenterServes(st, t) && h !in st.center.reg
    ensures Linked(Run(st, es), h, p, t, a, s)
  {
    var dialled := Dials(st, h, a, s, ProxyNode(p));
    var one := Run(st, dialled);
    var entered := LetsIn(one, h, p, t, s, now);
    var two := Run(one, entered);
    var added := ReadsAndAdds(two, t, now);
    es := dialled + (entered + added);
    RunAppend(st, dialled, entered + added);
    RunAppend(one, entered, added);
  }

  /** A proxy that dials center and is let in is on its stream, with nothing more to say. */
  lemma ProxyDials(st: State, p: ProxyId, t: StreamId, now: int) returns (es: seq<Event>)
    requires p in st.proxies && t !in st.world.links && t !in st.center.handlers
    ensures var end := Run(st, es);
            && Upward(end, p, t) && CenterServes(end, t) && end.queues[t] == Queue([], [RegisterAck(true)])
            && st.proxies[p].name in end.center.reg && end.center.reg[st.proxies[p].name].route == t
            && end.proxies == st.proxies && end.agents == st.agents
  {
    var node, dial, attach := ProxyNode(p), Dial(t, ProxyNode(p), CenterNode), Attach(ProxyNode(p), t);
    var m := RegisterRequest(st.proxies[p].name, NodeType.Proxy, [], Info("", "proxy", "1.0.0"));
    var one := Apply(st, dial);
    var two := Apply(one, attach);
    assert two.queues == st.queues[t := Queue([m], [])];
    var entered := LetsInAtCenter(two, t, m, now);
    es := [dial] + ([attach] + entered);
    RunThen(st, dial, [attach] + entered);
    RunThen(one, attach, entered);
  }

  // --- a proxy that does not hold the target ---

  lemma RefusingIs(st: State, h: Host, p: ProxyId, t: StreamId, id: RequestId, tool: string, args: string)
    requires Upward(st, p, t) && st.proxies[p].reader.Idle? && h !in st.proxies[p].reg
    requires DownOf(st, t) == [ToolRequest(id, tool, args, h)]
    ensures var end := Apply(st, ProxyHears(p, t));
            && UpOf(end, t) ==
              UpOf(st, t) + [ErrorResponse(id, "HOST_NOT_FOUND", "proxy: target host " + h + " not found")]
            && end.center == st.center && end.agents == st.agents && end.world.links == st.world.links
            && end.queues.Keys == st.queues.Keys
  {
    var m := ToolRequest(id, tool, args, h);
    HearingIs(st, p, t);
    SaysUp(st.(world := Refused(st, p, m), queues := PopDown(st.queues, t)), p, P.Request(m), P.Refusal(id, h));
  }

  /** A call whose target the proxy no longer holds can come back with the proxy's
      refusal, and no agent has been asked. */
  lemma RefusalReturns(st: State, h: Host, p: ProxyId, t: StreamId, c: M.CallId, id: RequestId, tool: string,
      args: string)
    returns (es: seq<Event>)
    requires Reachable(st) && Upward(st, p, t) && CenterServes(st, t) && Unused(st, c, id)
    requires h in st.center.reg && st.center.reg[h].route == t && h !in st.proxies[p].reg
    ensures var end := Run(st, es);
            && ReturnedWith(end.center.router, c, id, h,
                 M.AgentError("HOST_NOT_FOUND", "proxy: target host " + h + " not found"))
            && end.agents == st.agents
  {
    ReachableIsApart(st, p, t);
    var quiet := ReaderIsQuiet(st, p, t);
    var one := Run(st, quiet);
    var read := CenterDrains(one, t, 0);
    var two := Run(one, read);
    var refused := Refuses(two, h, p, t, c, id, tool, args);
    es := quiet + (read + refused);
    RunAppend(st, quiet, read + refused);
    RunAppend(one, read, refused);
  }

  lemma Refuses(st: State, h: Host, p: ProxyId, t: StreamId, c: M.CallId, id: RequestId, tool: string, args: string)
    returns (es: seq<Event>)
    requires Upward(st, p, t) && CenterServes(st, t) && Unused(st, c, id) && st.proxies[p].reader.Idle?
    requires h in st.center.reg && st.center.reg[h].route == t && h !in st.proxies[p].reg
    requires UpOf(st, t) == [] && Acked([], DownOf(st, t))
    ensures var end := Run(st, es);
            && ReturnedWith(end.center.router, c, id, h,
                 M.AgentError("HOST_NOT_FOUND", "proxy: target host " + h + " not found"))
            && end.agents == st.agents
  {
    var asked := Asks(st, c, id, h, tool, args);
    var one := Run(st, asked);
    var acks := AcksPass(one, p, t, |DownOf(st, t)|);
    var two := Run(one, acks);
    var hear := ProxyHears(p, t);
    RefusingIs(two, h, p, t, id, tool, args);
    var three := Apply(two, hear);
    var back := ReplyReturns(three, t, c, id, h, tool, args, UpOf(three, t)[0], 0);
    es := asked + (acks + ([hear] + back));
    RunAppend(st, asked, acks + ([hear] + back));
    RunAppend(one, acks, [hear] + back);
    RunThen(two, hear, back);
  }
}
