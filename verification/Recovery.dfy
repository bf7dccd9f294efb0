/** Recovery after a proxy has reconnected, over runs of the whole system: from
    the heartbeats of the nodes through the proxy and its upstream stream to
    center's registry. */
module Recovery {
  import opened Tunnel
  import opened System
  import opened SystemRuns
  import opened Seqs
  import C = Center
  import P = Proxy
  import A = Agent

  // --- streams and who writes on them ---

  /** Nodes write on streams of their own, every stream has its queues, proxies
      dial center, and what a proxy relays is a reply. */
  ghost predicate Wired(st: State) {
    && (forall n :: n in st.current ==> st.current[n] in st.world.links && st.world.links[st.current[n]].client == n)
    && (forall s :: s in st.world.links ==> s in st.queues)
    && (forall s :: s in st.world.links && st.world.links[s].client.ProxyNode? ==>
      st.world.links[s].server == CenterNode)
    && (forall p :: p in st.proxies ==> P.RelaysReplies(st.proxies[p]))
  }

  function UpOf(st: State, s: StreamId): seq<Message> {
    if s in st.queues then st.queues[s].up else []
  }

  predicate On(st: State, node: Node, s: StreamId) {
    node in st.current && st.current[node] == s && s in st.queues
  }

  lemma SendUp(st: State, node: Node, m: Message, s: StreamId)
    ensures UpOf(Send(st, node, m), s) == UpOf(st, s) + (if On(st, node, s) then [m] else [])
  {
  }

  lemma {:induction false} PostCenterUp(st: State, outs: seq<C.Output>, s: StreamId)
    ensures UpOf(PostCenter(st, outs), s) == UpOf(st, s)
    decreases |outs|
  {
    if outs != [] {
      PostCenterUp(st.(queues := PushDown(st.queues, outs[0].s, outs[0].msg)), outs[1..], s);
    }
  }

  lemma {:induction false} PostProxyUp(st: State, p: ProxyId, outs: seq<P.Output>, s: StreamId)
    ensures UpOf(PostProxy(st, p, outs), s) == UpOf(st, s) + (if On(st, ProxyNode(p), s) then P.Ups(outs) else [])
    decreases |outs|
  {
    if outs != [] {
      var next := PostedOne(st, p, outs[0]);
      PostedOneUp(st, p, outs[0], s);
      PostProxyUp(next, p, outs[1..], s);
      if outs[0].Up? && On(st, ProxyNode(p), s) {
        Assoc(UpOf(st, s), [outs[0].msg], P.Ups(outs[1..]));
      } else if On(st, ProxyNode(p), s) {
        assert P.Ups(outs) == P.Ups(outs[1..]);
      }
    }
  }

  function PostedOne(st: State, p: ProxyId, out: P.Output): State {
    match out
    case Up(m) => Send(st, ProxyNode(p), m)
    case Down(t, m) => st.(queues := PushDown(st.queues, t, m))
  }

  lemma PostedOneUp(st: State, p: ProxyId, out: P.Output, s: StreamId)
    ensures var next := PostedOne(st, p, out);
            && UpOf(next, s) == UpOf(st, s) + (if out.Up? && On(st, ProxyNode(p), s) then [out.msg] else [])
            && OnlyQueued(st, next)
  {
    if out.Up? { SendUp(st, ProxyNode(p), out.msg, s); }
  }

  lemma {:induction false} PostAgentUp(st: State, a: AgentId, outs: seq<Message>, s: StreamId)
    ensures UpOf(PostAgent(st, a, outs), s) == UpOf(st, s) + (if On(st, AgentNode(a), s) then outs else [])
    decreases |outs|
  {
    if outs != [] {
      SendUp(st, AgentNode(a), outs[0], s);
      PostAgentUp(Send(st, AgentNode(a), outs[0]), a, outs[1..], s);
    }
  }

  // --- what one step does to the stream from a proxy to center ---

  /** Stream `s` leads from proxy `p` to center, whose handler of it has started. */
  predicate Upstream(st: State, p: ProxyId, s: StreamId) {
    && p in st.proxies && On(st, ProxyNode(p), s)
    && s in st.world.links && st.world.links[s] == Link(ProxyNode(p), CenterNode)
    && s in st.center.handlers
  }

  /** The step leaves the stream whole and the proxy on it. */
  predicate Spared(ev: Event, p: ProxyId, s: StreamId) {
    && !(ev.Break? && ev.s == s)
    && !(ev.Detach? && ev.node == ProxyNode(p))
    && !(ev.Attach? && ev.node == ProxyNode(p) && ev.s != s)
  }

  predicate AllSpared(es: seq<Event>, p: ProxyId, s: StreamId) {
    forall k :: 0 <= k < |es| ==> Spared(es[k], p, s)
  }

  predicate CenterReadsOf(st: State, ev: Event, s: StreamId) {
    ev.CenterReads? && ev.s == s && Readable(st, s, CenterNode) && C.IsServing(st.center, s)
  }

  function ToldBy(st: State, step: Step, p: ProxyId): seq<Message>
    requires p in st.proxies
  {
    var part := OfProxy(step, p);
    if part == [] then [] else P.Ups(P.Outputs(st.proxies[p], part[0]))
  }

  /** What the proxy puts on its upstream stream in the step. */
  function Told(st: State, ev: Event, p: ProxyId): seq<Message>
    requires p in st.proxies
  {
    if ev.Beat? then (if ev.node == ProxyNode(p) then [Heartbeat(ev.timestamp)] else [])
    else ToldBy(st, StepOf(st, ev), p)
  }

  /** Center takes from the front, the proxy adds at the end, and nothing else happens. */
  ghost predicate Flows(st: State, ev: Event, p: ProxyId, s: StreamId)
    requires p in st.proxies
  {
    UpOf(Apply(st, ev), s) ==
      (if CenterReadsOf(st, ev, s) then UpOf(st, s)[1..] else UpOf(st, s)) + Told(st, ev, p)
  }

  /** Only center takes from the stream to it. */
  lemma TakenUp(st: State, ev: Event, p: ProxyId, s: StreamId)
    requires Upstream(st, p, s) && !OfStreams(ev)
    ensures UpOf(Taken(st, ev), s) == if CenterReadsOf(st, ev, s) then UpOf(st, s)[1..] else UpOf(st, s)
  {
  }

  /** Only the proxy adds to its stream. */
  lemma ActedUp(st: State, step: Step, p: ProxyId, s: StreamId)
    requires Upstream(st, p, s) && CurrentOk(st)
    ensures UpOf(Acted(st, step), s) == UpOf(st, s) + ToldBy(st, step, p)
  {
    var next := Stepped(st, step);
    match step
    case CenterDoes(cev) => PostCenterUp(next, C.Outputs(st.center, cev), s);
    case ProxyDoes(q, pev) => if q in st.proxies { PostProxyUp(next, q, P.Outputs(st.proxies[q], pev), s); }
    case AgentDoes(a, aev) => if a in st.agents { PostAgentUp(next, a, A.Outputs(st.agents[a], aev), s); }
    case Nobody =>
  }

  lemma RewiredFlows(st: State, ev: Event, p: ProxyId, s: StreamId)
    requires Upstream(st, p, s) && CurrentOk(st) && Spared(ev, p, s) && OfStreams(ev)
    ensures UpOf(Rewired(st, ev), s) == UpOf(st, s) + Told(st, ev, p) && Upstream(Rewired(st, ev), p, s)
  {
    if ev.Beat? { SendUp(st, ev.node, Heartbeat(ev.timestamp), s); }
  }

  lemma HandlersStay(st: State, ev: Event, s: StreamId)
    requires s in st.center.handlers
    ensures s in Apply(st, ev).center.handlers
  {
    StepIs(st, ev);
  }

  /** Every step that leaves the stream alone lets it flow, and both ends stay. */
  lemma StepFlows(st: State, ev: Event, p: ProxyId, s: StreamId)
    requires Upstream(st, p, s) && CurrentOk(st) && Spared(ev, p, s)
    ensures Flows(st, ev, p, s) && Upstream(Apply(st, ev), p, s)
  {
    if OfStreams(ev) {
      RewiredFlows(st, ev, p, s);
    } else {
      TakenLeavesParts(st, ev);
      TakenKeepsWires(st, ev);
      TakenUp(st, ev, p, s);
      ActedUp(Taken(st, ev), StepOf(st, ev), p, s);
      ActedKeepsWires(Taken(st, ev), StepOf(st, ev));
      HandlersStay(st, ev, s);
      StepIs(st, ev);
    }
  }

  lemma {:induction false} RelaysRepliesRun(st: P.State, es: seq<P.Event>)
    requires P.RelaysReplies(st)
    ensures P.RelaysReplies(P.Run(st, es))
    decreases |es|
  {
    if es != [] {
      P.RelaysRepliesStep(st, es[0]);
      RelaysRepliesRun(P.Apply(st, es[0]), es[1..]);
    }
  }

  lemma RewiredIsWired(st: State, ev: Event)
    requires Wired(st) && OfStreams(ev)
    ensures Wired(Rewired(st, ev))
  {
    if ev.Beat? { SendOnlyQueues(st, ev.node, Heartbeat(ev.timestamp)); }
  }

  lemma WiredStep(st: State, ev: Event)
    requires Wired(st)
    ensures Wired(Apply(st, ev))
  {
    if OfStreams(ev) {
      RewiredIsWired(st, ev);
    } else {
      TakenKeepsWires(st, ev);
      ActedKeepsWires(Taken(st, ev), StepOf(st, ev));
      StepIs(st, ev);
      forall p | p in st.proxies ensures P.RelaysReplies(Apply(st, ev).proxies[p]) {
        RelaysRepliesRun(st.proxies[p], ProxyPart(st, ev, p));
      }
    }
  }

  /** Every reachable state is wired and has live routes. */
  lemma {:induction false} RunStaysWired(st: State, es: seq<Event>)
    requires Wired(st) && PartsOk(st)
    ensures Wired(Run(st, es)) && PartsOk(Run(st, es))
    decreases |es|
  {
    if es != [] {
      WiredStep(st, es[0]);
      StepKeepsParts(st, es[0]);
      RunStaysWired(Apply(st, es[0]), es[1..]);
    }
  }

  // --- from the heartbeat to center ---

  /** Center's part of the rest of the run hears `m`, and so does its part of the whole. */
  lemma HeardLater(st: State, es: seq<Event>, s: StreamId, m: Message)
    requires es != [] && C.Hears(Apply(st, es[0]).center, CenterEvents(Apply(st, es[0]), es[1..]), s, m)
    ensures C.Hears(st.center, CenterEvents(st, es), s, m)
  {
    var part, rest := CenterPart(st, es[0]), CenterEvents(Apply(st, es[0]), es[1..]);
    StepIs(st, es[0]);
    if part == [] {
      assert part + rest == rest;
    } else {
      assert part == [part[0]] && part[1..] == [];
      assert (part + rest)[0] == part[0] && (part + rest)[1..] == rest;
      assert C.Run(st.center, part) == C.Apply(st.center, part[0]);
    }
  }

  lemma HeardNow(st: State, es: seq<Event>, s: StreamId)
    requires es != [] && CenterReadsOf(st, es[0], s)
    ensures C.Hears(st.center, CenterEvents(st, es), s, UpOf(st, s)[0])
  {
    var part, rest := CenterPart(st, es[0]), CenterEvents(Apply(st, es[0]), es[1..]);
    assert (part + rest)[0] == part[0];
  }

  /** What is on a stream that stays whole and is read to the end is heard. */
  lemma {:induction false} WillBeHeard(st: State, es: seq<Event>, p: ProxyId, s: StreamId, m: Message)
    requires Wired(st) && Upstream(st, p, s) && AllSpared(es, p, s)
    requires m in UpOf(st, s) && UpOf(Run(st, es), s) == []
    ensures C.Hears(st.center, CenterEvents(st, es), s, m)
    decreases |es|
  {
    if es != [] {
      var up, next := UpOf(st, s), Apply(st, es[0]);
      StepFlows(st, es[0], p, s);
      WiredStep(st, es[0]);
      if CenterReadsOf(st, es[0], s) && up[0] == m {
        HeardNow(st, es, s);
      } else {
        if CenterReadsOf(st, es[0], s) { assert up == [up[0]] + up[1..]; }
        assert m in UpOf(next, s);
        WillBeHeard(next, es[1..], p, s, m);
        HeardLater(st, es, s, m);
      }
    }
  }

  /** The step is proxy `p` reading a heartbeat of a node that registered as `h`
      and is in its registry. */
  predicate Beats(st: State, ev: Event, p: ProxyId, h: Host) {
    && ev.ProxyReads? && ev.p == p && p in st.proxies
    && Readable(st, ev.s, ProxyNode(p)) && P.IsServing(st.proxies[p], ev.s)
    && st.queues[ev.s].up[0].Heartbeat?
    && st.proxies[p].handlers[ev.s].req.hostname == h && h in st.proxies[p].reg
  }

  /** One heartbeat of `h` comes to the proxy in the run. */
  predicate BeatOnce(st: State, es: seq<Event>, p: ProxyId, h: Host)
    decreases |es|
  {
    es != [] && (Beats(st, es[0], p, h) || BeatOnce(Apply(st, es[0]), es[1..], p, h))
  }

  lemma BeatTells(st: State, ev: Event, p: ProxyId, s: StreamId, h: Host)
    requires Wired(st) && PartsOk(st) && Upstream(st, p, s) && Beats(st, ev, p, h)
    ensures var m := P.AnnounceRecord(st.proxies[p].name, st.proxies[p].reg[h]);
            m.RegisterRequest? && m.hostname == h && m in UpOf(Apply(st, ev), s)
  {
    var pst, t := st.proxies[p], st.queues[ev.s].up[0].timestamp;
    StepFlows(st, ev, p, s);
    P.HeartbeatAnnounces(pst, ev.s, t, ev.now);
    assert ProxyPart(st, ev, p) == [P.Beat(ev.s, t, ev.now)];
  }

  /** A heartbeat in the run leads to center hearing of the host on the stream. */
  lemma {:induction false} BeatIsHeard(st: State, es: seq<Event>, p: ProxyId, s: StreamId, h: Host) returns (m: Message)
    requires Wired(st) && PartsOk(st) && Upstream(st, p, s) && AllSpared(es, p, s)
    requires BeatOnce(st, es, p, h) && UpOf(Run(st, es), s) == []
    ensures m.RegisterRequest? && m.hostname == h && C.Hears(st.center, CenterEvents(st, es), s, m)
    decreases |es|
  {
    var next := Apply(st, es[0]);
    StepFlows(st, es[0], p, s);
    WiredStep(st, es[0]);
    StepKeepsParts(st, es[0]);
    if Beats(st, es[0], p, h) {
      m := P.AnnounceRecord(st.proxies[p].name, st.proxies[p].reg[h]);
      BeatTells(st, es[0], p, s, h);
      WillBeHeard(next, es[1..], p, s, m);
    } else {
      m := BeatIsHeard(next, es[1..], p, s, h);
    }
    HeardLater(st, es, s, m);
  }

  // --- what the proxy has to say of one host ---

  /** Everything on the way to center about `h` is `m`. */
  ghost predicate Agreed(st: State, p: ProxyId, s: StreamId, h: Host, m: Message)
    requires p in st.proxies
  {
    && P.Speaks(st.proxies[p], h, m)
    && forall x :: x in UpOf(st, s) && x.RegisterRequest? && x.hostname == h ==> x == m
  }

  /** `h` does not register anew at the proxy in the run. */
  predicate NotRenewed(st: State, es: seq<Event>, p: ProxyId, h: Host)
    decreases |es|
  {
    es == [] ||
    (&& (p in st.proxies ==> forall pev :: pev in ProxyPart(st, es[0], p) ==> !P.Renews(st.proxies[p], pev, h))
     && NotRenewed(Apply(st, es[0]), es[1..], p, h))
  }

  lemma SpeaksPart(pst: P.State, part: seq<P.Event>, h: Host, m: Message)
    requires P.RoutesLive(pst) && P.RelaysReplies(pst) && P.Speaks(pst, h, m) && |part| <= 1
    requires forall pev :: pev in part ==> !P.Renews(pst, pev, h)
    ensures P.Speaks(P.Run(pst, part), h, m)
    ensures part != [] ==>
      forall x :: x in P.Ups(P.Outputs(pst, part[0])) && x.RegisterRequest? && x.hostname == h ==> x == m
  {
    if part != [] {
      assert part[1..] == [] && part[0] in part;
      P.SpeaksStep(pst, part[0], h, m);
      P.SaysOnly(pst, part[0], h, m);
    }
  }

  lemma AgreedStep(st: State, ev: Event, p: ProxyId, s: StreamId, h: Host, m: Message)
    requires Wired(st) && PartsOk(st) && Upstream(st, p, s) && Spared(ev, p, s) && Agreed(st, p, s, h, m)
    requires forall pev :: pev in ProxyPart(st, ev, p) ==> !P.Renews(st.proxies[p], pev, h)
    ensures p in Apply(st, ev).proxies && Agreed(Apply(st, ev), p, s, h, m)
  {
    var next := Apply(st, ev);
    StepFlows(st, ev, p, s);
    OneProxySteps(st, ev, p);
    SpeaksPart(st.proxies[p], ProxyPart(st, ev, p), h, m);
    forall x | x in UpOf(next, s) && x.RegisterRequest? && x.hostname == h ensures x == m {
      assert x in UpOf(st, s) || x in Told(st, ev, p);
    }
  }

  /** What center reads of `h` in the step is on the stream. */
  lemma PartTellsOnly(st: State, ev: Event, p: ProxyId, s: StreamId, h: Host, m: Message)
    requires Upstream(st, p, s) && m.RegisterRequest? && m.hostname == h && Agreed(st, p, s, h, m)
    ensures forall cev :: cev in CenterPart(st, ev) ==> C.ToldOnly(cev, s, m)
  {
  }

  /** All that center reads of `h` on the stream is `m`. */
  lemma {:induction false} TellsOnly(st: State, es: seq<Event>, p: ProxyId, s: StreamId, h: Host, m: Message)
    requires Wired(st) && PartsOk(st) && Upstream(st, p, s) && AllSpared(es, p, s)
    requires m.RegisterRequest? && m.hostname == h && Agreed(st, p, s, h, m) && NotRenewed(st, es, p, h)
    ensures C.AlwaysTold(CenterEvents(st, es), s, m)
    decreases |es|
  {
    if es != [] {
      var part, rest := CenterPart(st, es[0]), CenterEvents(Apply(st, es[0]), es[1..]);
      AgreedStep(st, es[0], p, s, h, m);
      PartTellsOnly(st, es[0], p, s, h, m);
      StepFlows(st, es[0], p, s);
      WiredStep(st, es[0]);
      StepKeepsParts(st, es[0]);
      TellsOnly(Apply(st, es[0]), es[1..], p, s, h, m);
      forall k | 0 <= k < |part + rest| ensures C.ToldOnly((part + rest)[k], s, m) {
        assert (part + rest)[k] in part || (part + rest)[k] == rest[k - |part|];
      }
    }
  }

  // --- the result ---

  ghost predicate Reachable(st: State) {
    exists hosts, tools, proxies, before :: st == Run(Initial(hosts, tools, proxies), before)
  }

  lemma ReachableIsWired(st: State)
    requires Reachable(st)
    ensures Wired(st) && PartsOk(st)
  {
    var hosts, tools, proxies, before :| st == Run(Initial(hosts, tools, proxies), before);
    RunStaysWired(Initial(hosts, tools, proxies), before);
  }

  /** Center serves the stream that proxy `p` now writes on; in the run the stream
      does not break, the proxy stays on it, and center reads it to its end. */
  predicate Reconnected(st: State, es: seq<Event>, p: ProxyId, s: StreamId) {
    && p in st.proxies && ProxyNode(p) in st.current && st.current[ProxyNode(p)] == s
    && C.IsServing(st.center, s) && AllSpared(es, p, s)
    && UpOf(Run(st, es), s) == [] && C.IsServing(Run(st, es).center, s)
  }

  /** Host `h` sends the proxy a heartbeat in the run, no store of `h` fails, and
      no stream that center routes `h` over is cleaned up. */
  predicate Refreshed(st: State, es: seq<Event>, p: ProxyId, h: Host) {
    BeatOnce(st, es, p, h) && C.Spares(st.center, CenterEvents(st, es), h)
  }

  /** Nobody but this proxy registers `h` with center in the run, and all it has
      said and will say of `h` is its record of the start. */
  ghost predicate SoleSource(st: State, es: seq<Event>, p: ProxyId, s: StreamId, h: Host)
    requires p in st.proxies && h in st.proxies[p].reg
  {
    && C.OnlyOver(st.center, CenterEvents(st, es), s, h)
    && NotRenewed(st, es, p, h)
    && Agreed(st, p, s, h, P.AnnounceRecord(st.proxies[p].name, st.proxies[p].reg[h]))
  }

  lemma ServedIsUpstream(st: State, p: ProxyId, s: StreamId)
    requires Wired(st) && p in st.proxies && ProxyNode(p) in st.current && st.current[ProxyNode(p)] == s
    requires s in st.center.handlers
    ensures Upstream(st, p, s)
  {
  }

  lemma HostRecovers(st: State, es: seq<Event>, p: ProxyId, s: StreamId, h: Host)
    requires Wired(st) && PartsOk(st) && Reconnected(st, es, p, s)
    requires h in st.proxies[p].reg && Refreshed(st, es, p, h)
    ensures var m, end := P.AnnounceRecord(st.proxies[p].name, st.proxies[p].reg[h]), Run(st, es).center;
            && h in end.reg
            && (h !in st.center.reg && SoleSource(st, es, p, s, h) ==> C.Via(end.reg[h], s, m))
            && (h in st.center.reg && C.NobodyRegisters(st.center, CenterEvents(st, es), h) ==>
                  C.SameButTimes(st.center.reg[h], end.reg[h]))
            && (end.reg[h].status.Online? <==> !C.Overdue(st.center, CenterEvents(st, es), h, None, false))
  {
    var said, ces := P.AnnounceRecord(st.proxies[p].name, st.proxies[p].reg[h]), CenterEvents(st, es);
    ServedIsUpstream(st, p, s);
    CenterRuns(st, es);
    var m := BeatIsHeard(st, es, p, s, h);
    if SoleSource(st, es, p, s, h) {
      TellsOnly(st, es, p, s, h, said);
      C.HeardIsTold(st.center, ces, s, m, said);
    }
    C.Recovery(st.center, ces, s, map[h := m]);
  }

  /** Recovery after a proxy reconnect, from any reachable state in which center
      serves the proxy's new stream, and over every run in which that stream stays
      up and is read to its end. When each host in the proxy's registry sends one
      heartbeat, and its store does not fail and its route is not cleaned up, then
      in the end center knows them all. A host it did not know is routed over the
      new stream on the proxy's name and the host's own path; a host it knew has
      kept its route and its registration time; a host is online unless one of
      center's checks came too late after the last word of it; and nobody is routed
      over a stream that center had cleaned up, such as the proxy's old one. */
  lemma HeartbeatsRecoverAllHosts(st: State, es: seq<Event>, p: ProxyId, s: StreamId)
    requires Reachable(st) && Reconnected(st, es, p, s)
    requires forall h :: h in st.proxies[p].reg ==> Refreshed(st, es, p, h)
    ensures var start, end, pst, ces := st.center.reg, Run(st, es).center.reg, st.proxies[p], CenterEvents(st, es);
            && pst.reg.Keys <= end.Keys
            && (forall h :: h in pst.reg && h !in start && SoleSource(st, es, p, s, h) ==>
                  end[h].route == s && end[h].path == [pst.name] + pst.reg[h].path && end[h].info == pst.reg[h].info)
            && (forall h :: h in pst.reg && h in start && C.NobodyRegisters(st.center, ces, h) ==>
                  end[h].route == start[h].route && end[h].registeredAt == start[h].registeredAt)
            && (forall h :: h in pst.reg ==> (end[h].status.Online? <==> !C.Overdue(st.center, ces, h, None, false)))
            && (forall h, t :: h in end && t in st.center.handlers && st.center.handlers[t].Finished? ==>
              end[h].route != t)
  {
    ReachableIsWired(st);
    CenterRuns(st, es);
    forall h | h in st.proxies[p].reg
      ensures h in Run(st, es).center.reg
      ensures h !in st.center.reg && SoleSource(st, es, p, s, h) ==>
        C.Via(Run(st, es).center.reg[h], s, P.AnnounceRecord(st.proxies[p].name, st.proxies[p].reg[h]))
      ensures h in st.center.reg && C.NobodyRegisters(st.center, CenterEvents(st, es), h) ==>
        C.SameButTimes(st.center.reg[h], Run(st, es).center.reg[h])
      ensures Run(st, es).center.reg[h].status.Online? <==>
        !C.Overdue(st.center, CenterEvents(st, es), h, None, false)
    {
      HostRecovers(st, es, p, s, h);
    }
    forall h, t | h in Run(st, es).center.reg && t in st.center.handlers && st.center.handlers[t].Finished?
      ensures Run(st, es).center.reg[h].route != t
    {
      C.DeadRoutesNeverReturn(st.center, CenterEvents(st, es), t, h);
    }
  }
}
