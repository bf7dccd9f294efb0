/** The proxy as the program runs it: the upstream dialer, the downstream service
    over shared objects, and the order of events in one upstream connection. */
module ProxyService {
  import opened Tunnel
  import opened Seqs
  import R = Registry
  import P = Proxy

  // --- the upstream connection ---

  class Dialer {
    var stream: Option<StreamId>
    /** Whether the transport under the current stream takes messages. */
    var healthy: bool
    var wire: seq<Message>

    constructor ()
      ensures stream == None && wire == []
    {
      stream, healthy, wire := None, true, [];
    }

    predicate Connected()
      reads this`stream, this`healthy
    {
      stream.Some? && healthy
    }

    method Send(msg: Message) returns (ok: bool)
      modifies this`wire
      ensures ok == Connected()
      ensures wire == old(wire) + if ok then [msg] else []
    {
      ok := Connected();
      if ok {
        wire := wire + [msg];
      }
    }
  }

  // --- runs of the proxy machine seen from outside ---

  function Said(st: P.State, es: seq<P.Event>): seq<P.Output>
    decreases |es|
  {
    if es == [] then [] else P.Outputs(st, es[0]) + Said(P.Apply(st, es[0]), es[1..])
  }

  lemma {:induction false} RunThen(st: P.State, a: seq<P.Event>, b: seq<P.Event>)
    ensures P.Run(st, a + b) == P.Run(P.Run(st, a), b)
    ensures Said(st, a + b) == Said(st, a) + Said(P.Run(st, a), b)
    decreases |a|
  {
    if a == [] {
      assert a + b == b;
    } else {
      assert (a + b)[0] == a[0] && (a + b)[1..] == a[1..] + b;
      RunThen(P.Apply(st, a[0]), a[1..], b);
    }
  }

  lemma Cons(st: P.State, e: P.Event, rest: seq<P.Event>)
    ensures P.Run(st, [e] + rest) == P.Run(P.Apply(st, e), rest)
    ensures Said(st, [e] + rest) == P.Outputs(st, e) + Said(P.Apply(st, e), rest)
  {
    assert ([e] + rest)[1..] == rest;
  }

  lemma RunTwo(st: P.State, e0: P.Event, e1: P.Event)
    ensures P.Run(st, [e0, e1]) == P.Apply(P.Apply(st, e0), e1)
    ensures Said(st, [e0, e1]) == P.Outputs(st, e0) + P.Outputs(P.Apply(st, e0), e1)
  {
    assert [e0, e1] == [e0] + ([e1] + []);
    Cons(st, e0, [e1] + []);
    Cons(P.Apply(st, e0), e1, []);
  }

  /** What the upstream reader does with one message. */
  function ReaderEvents(msg: Message, sendOk: bool): seq<P.Event> {
    match msg
    case ToolRequest(_, _, _, _) => [P.Request(msg), P.Store] + [P.Forward(sendOk)]
    case CancelRequest(id) => [P.Claim(id), P.ForwardCancel]
    case _ => []
  }

  /** The pending map and the sends after the reader has handled one message. */
  function ReaderPending(reg: R.Table, pending: map<RequestId, Host>, msg: Message, sendOk: bool): map<RequestId,
      Host> {
    match msg
    case ToolRequest(id, _, _, target) =>
      if target !in reg then pending else if sendOk then pending[id := target] else pending - {id}
    case CancelRequest(id) => pending - {id}
    case _ => pending
  }

  function ReaderSays(reg: R.Table, pending: map<RequestId, Host>, msg: Message, sendOk: bool): seq<P.Output> {
    match msg
    case ToolRequest(id, _, _, target) =>
      if target !in reg then [P.Up(P.Refusal(id, target))] else if sendOk then [P.Down(reg[target].route, msg)] else []
    case CancelRequest(id) =>
      if id in pending && pending[id] in reg then [P.Down(reg[pending[id]].route, msg)] else []
    case _ => []
  }

  lemma RequestTurn(st: P.State, msg: Message, sendOk: bool)
    requires st.reader == P.Idle && msg.ToolRequest? && msg.target in st.reg
    ensures P.Run(st, ReaderEvents(msg, sendOk)) == st.(pending := ReaderPending(st.reg, st.pending, msg, sendOk))
    ensures Said(st, ReaderEvents(msg, sendOk)) == ReaderSays(st.reg, st.pending, msg, sendOk)
  {
    RunThen(st, [P.Request(msg), P.Store], [P.Forward(sendOk)]);
    RunTwo(st, P.Request(msg), P.Store);
    StoreSteps(st, msg);
    ForwardStep(st, msg, sendOk);
    Cons(StoredFor(st, msg), P.Forward(sendOk), []);
    assert [P.Forward(sendOk)] == [P.Forward(sendOk)] + [];
  }

  /** The reader with the entry stored and the request about to be forwarded. */
  function StoredFor(st: P.State, msg: Message): P.State
    requires msg.ToolRequest? && msg.target in st.reg
  {
    st.(pending := st.pending[msg.requestId := msg.target], reader := P.Forwarding(msg, st.reg[msg.target].route))
  }

  lemma StoreSteps(st: P.State, msg: Message)
    requires st.reader == P.Idle && msg.ToolRequest? && msg.target in st.reg
    ensures P.Apply(P.Apply(st, P.Request(msg)), P.Store) == StoredFor(st, msg)
    ensures P.Outputs(st, P.Request(msg)) == [] && P.Outputs(P.Apply(st, P.Request(msg)), P.Store) == []
  {
  }

  lemma ForwardStep(st: P.State, msg: Message, sendOk: bool)
    requires st.reader == P.Idle && msg.ToolRequest? && msg.target in st.reg
    ensures P.Apply(StoredFor(st, msg), P.Forward(sendOk)) ==
      st.(pending := ReaderPending(st.reg, st.pending, msg, sendOk))
    ensures P.Outputs(StoredFor(st, msg), P.Forward(sendOk)) == ReaderSays(st.reg, st.pending, msg, sendOk)
  {
    assert st.pending[msg.requestId := msg.target] - {msg.requestId} == st.pending - {msg.requestId};
  }

  lemma RefusalTurn(st: P.State, msg: Message, sendOk: bool)
    requires st.reader == P.Idle && msg.ToolRequest? && msg.target !in st.reg
    ensures P.Run(st, ReaderEvents(msg, sendOk)) == st
    ensures Said(st, ReaderEvents(msg, sendOk)) == [P.Up(P.Refusal(msg.requestId, msg.target))]
  {
    RunThen(st, [P.Request(msg), P.Store], [P.Forward(sendOk)]);
    RunTwo(st, P.Request(msg), P.Store);
    Cons(st, P.Forward(sendOk), []);
    assert [P.Forward(sendOk)] == [P.Forward(sendOk)] + [];
  }

  lemma CancelTurn(st: P.State, id: RequestId)
    requires st.reader == P.Idle
    ensures P.Run(st, ReaderEvents(CancelRequest(id), true)) == st.(pending := st.pending - {id})
    ensures Said(st, ReaderEvents(CancelRequest(id), true)) == ReaderSays(st.reg, st.pending, CancelRequest(id), true)
  {
    RunTwo(st, P.Claim(id), P.ForwardCancel);
    assert id !in st.pending ==> st.pending - {id} == st.pending;
  }

  /** A turn of the reader is what the proxy machine does with the message. */
  lemma ReaderTurn(st: P.State, msg: Message, sendOk: bool)
    requires st.reader == P.Idle
    ensures P.Run(st, ReaderEvents(msg, sendOk)) == st.(pending := ReaderPending(st.reg, st.pending, msg, sendOk))
    ensures Said(st, ReaderEvents(msg, sendOk)) == ReaderSays(st.reg, st.pending, msg, sendOk)
  {
    match msg
    case ToolRequest(_, _, _, target) =>
      if target in st.reg { RequestTurn(st, msg, sendOk); } else { RefusalTurn(st, msg, sendOk); }
    case CancelRequest(id) => CancelTurn(st, id);
    case _ =>
  }

  /** An incoming message of a downstream node, and when it is read. */
  datatype Incoming = Incoming(msg: Message, now: int)

  /** What the handler of stream `s` does with one message. */
  function NodeEvents(s: StreamId, m: Incoming): seq<P.Event> {
    if m.msg.Heartbeat? then [P.Beat(s, m.msg.timestamp, m.now)]
    else if m.msg.IsReply() then [P.TakeReply(s, m.msg), P.Relay(s)]
    else []
  }

  function LoopEvents(s: StreamId, inbox: seq<Incoming>): seq<P.Event>
    decreases |inbox|
  {
    if inbox == [] then [] else LoopEvents(s, inbox[..|inbox| - 1]) + NodeEvents(s, inbox[|inbox| - 1])
  }

  function NodeTable(reg: R.Table, host: Host, m: Incoming): R.Table {
    if m.msg.Heartbeat? then R.Beaten(reg, host, m.now) else reg
  }

  function NodePending(pending: map<RequestId, Host>, m: Incoming): map<RequestId, Host> {
    if m.msg.IsReply() then pending - {m.msg.requestId} else pending
  }

  /** What the turn sends back to the node, and what it sends upstream. */
  function NodeDown(s: StreamId, m: Incoming): seq<P.Output> {
    if m.msg.Heartbeat? then [P.Down(s, HeartbeatAck(m.msg.timestamp))] else []
  }

  function NodeUp(name: Host, reg: R.Table, host: Host, m: Incoming): seq<Message> {
    if m.msg.Heartbeat? then (if host in reg then [P.AnnounceRecord(name, reg[host])] else [])
    else if m.msg.IsReply() then [m.msg]
    else []
  }

  function Serving(name: Host, reg: R.Table, pending: map<RequestId, Host>, s: StreamId, req: Message): P.State {
    P.State(name, reg, map[s := P.Serving(req)], pending, P.Idle)
  }

  lemma NodeTurn(name: Host, reg: R.Table, pending: map<RequestId, Host>, s: StreamId, req: Message, m: Incoming)
    requires req.RegisterRequest?
    ensures var st := Serving(name, reg, pending, s, req);
            && P.Run(st, NodeEvents(s, m)) ==
              Serving(name, NodeTable(reg, req.hostname, m), NodePending(pending, m), s, req)
            && P.Downs(Said(st, NodeEvents(s, m))) == NodeDown(s, m)
            && P.Ups(Said(st, NodeEvents(s, m))) == NodeUp(name, reg, req.hostname, m)
  {
    var st := Serving(name, reg, pending, s, req);
    if m.msg.Heartbeat? {
      Cons(st, P.Beat(s, m.msg.timestamp, m.now), []);
      assert NodeEvents(s, m) == [P.Beat(s, m.msg.timestamp, m.now)] + [];
      var ack := P.Down(s, HeartbeatAck(m.msg.timestamp));
      var rest := if req.hostname in reg then [P.Up(P.AnnounceRecord(name, reg[req.hostname]))] else [];
      assert Said(st, NodeEvents(s, m)) == [ack] + rest;
      P.SplitOutputs([ack], rest);
    } else if m.msg.IsReply() {
      RunTwo(st, P.TakeReply(s, m.msg), P.Relay(s));
    }
  }

  // --- the service ---

  class DownstreamService {
    const proxyHostname: Host
    const reg: R.Registry
    const upstream: Dialer
    var pendingRequests: map<RequestId, Host>

    constructor (proxyHostname: Host, reg: R.Registry, upstream: Dialer)
      ensures this.proxyHostname == proxyHostname && this.reg == reg && this.upstream == upstream
        && pendingRequests == map[]
    {
      this.proxyHostname, this.reg, this.upstream, pendingRequests := proxyHostname, reg, upstream, map[];
    }

    /** The service between two messages of its upstream reader. */
    function View(): P.State
      reads this`pendingRequests, reg, reg.records.Values
    {
      P.State(proxyHostname, reg.View(), map[], pendingRequests, P.Idle)
    }

    /** One message of the upstream reader; `sendOk` is the answer of the node's stream. */
    method OnMessage(msg: Message, sendOk: bool) returns (down: seq<P.Output>)
      requires reg.Valid()
      modifies this`pendingRequests, upstream`wire
      ensures View() == P.Run(old(View()), ReaderEvents(msg, sendOk))
      ensures down == P.Downs(Said(old(View()), ReaderEvents(msg, sendOk)))
      ensures upstream.wire == old(upstream.wire) +
                if upstream.Connected() then P.Ups(Said(old(View()), ReaderEvents(msg, sendOk))) else []
    {
      ReaderTurn(View(), msg, sendOk);
      down := React(msg, sendOk);
    }

    method React(msg: Message, sendOk: bool) returns (down: seq<P.Output>)
      requires reg.Valid()
      modifies this`pendingRequests, upstream`wire
      ensures pendingRequests == ReaderPending(reg.View(), old(pendingRequests), msg, sendOk)
      ensures down == P.Downs(ReaderSays(reg.View(), old(pendingRequests), msg, sendOk))
      ensures upstream.wire == old(upstream.wire) +
                if upstream.Connected() then P.Ups(ReaderSays(reg.View(), old(pendingRequests), msg, sendOk)) else []
    {
      down := [];
      match msg {
        case ToolRequest(_, _, _, _) => down := DeliverToolRequest(msg, sendOk);
        case CancelRequest(_) => down := DeliverCancelRequest(msg);
        case _ =>
      }
    }

    method DeliverToolRequest(msg: Message, sendOk: bool) returns (down: seq<P.Output>)
      requires reg.Valid() && msg.ToolRequest?
      modifies this`pendingRequests, upstream`wire
      ensures pendingRequests == ReaderPending(reg.View(), old(pendingRequests), msg, sendOk)
      ensures down == P.Downs(ReaderSays(reg.View(), old(pendingRequests), msg, sendOk))
      ensures upstream.wire == old(upstream.wire) +
                if upstream.Connected() then P.Ups(ReaderSays(reg.View(), old(pendingRequests), msg, sendOk)) else []
      ensures msg.target in reg.View() ==>
        && upstream.wire == old(upstream.wire)
        && pendingRequests == (if sendOk then old(pendingRequests)[msg.requestId := msg.target]
                               else old(pendingRequests) - {msg.requestId})
        && down == if sendOk then [P.Down(reg.View()[msg.target].route, msg)] else []
      ensures msg.target !in reg.View() ==>
        && pendingRequests == old(pendingRequests) && down == []
        && upstream.wire == old(upstream.wire) + if upstream.Connected() then [ErrorResponse(msg.requestId,
             "HOST_NOT_FOUND", "proxy: target host " + msg.target + " not found")] else []
    {
      down := [];
      var rec := reg.Lookup(msg.target);
      if rec == null {
        var _ := upstream.Send(P.Refusal(msg.requestId, msg.target));
        return;
      }
      pendingRequests := pendingRequests[msg.requestId := msg.target];
      if sendOk {
        down := [P.Down(rec.route, msg)];
      } else {
        pendingRequests := pendingRequests - {msg.requestId};
      }
    }

    method DeliverCancelRequest(msg: Message) returns (down: seq<P.Output>)
      requires reg.Valid() && msg.CancelRequest?
      modifies this`pendingRequests
      ensures pendingRequests == ReaderPending(reg.View(), old(pendingRequests), msg, true)
      ensures down == P.Downs(ReaderSays(reg.View(), old(pendingRequests), msg, true))
      ensures P.Ups(ReaderSays(reg.View(), old(pendingRequests), msg, true)) == []
      ensures pendingRequests == old(pendingRequests) - {msg.requestId}
      ensures down ==
        if msg.requestId in old(pendingRequests) && old(pendingRequests)[msg.requestId] in reg.View()
        then [P.Down(reg.View()[old(pendingRequests)[msg.requestId]].route, msg)] else []
    {
      down := [];
      if msg.requestId in pendingRequests {
        var target := pendingRequests[msg.requestId];
        pendingRequests := pendingRequests - {msg.requestId};
        var rec := reg.Lookup(target);
        if rec != null {
          down := [P.Down(rec.route, msg)];
        }
      }
    }

    /** Forgets what was pending and tells upstream of every online node, once
        each, if upstream can be told at all: the first failing send ends it. */
    method ReregisterAll()
      requires reg.Valid()
      modifies this`pendingRequests, upstream`wire
      ensures pendingRequests == map[]
      ensures !upstream.Connected() ==> upstream.wire == old(upstream.wire)
      ensures upstream.Connected() ==> exists told ::
        && upstream.wire == old(upstream.wire) + told
        && Announces(told, proxyHostname, reg.View())
    {
      ClearPending();
      var all := reg.All();
      AnnounceAll(all);
      if upstream.Connected() {
        AnnouncesAll(proxyHostname, all, reg.View());
        ghost var told := AnnounceOnline(proxyHostname, all);
        assert upstream.wire == old(upstream.wire) + told;
      }
    }

    method AnnounceAll(all: seq<R.Record>)
      modifies upstream`wire
      ensures upstream.wire == old(upstream.wire) + if upstream.Connected()
        then AnnounceOnline(proxyHostname, all) else []
    {
      for k := 0 to |all|
        invariant upstream.wire == old(upstream.wire) + if upstream.Connected()
          then AnnounceOnline(proxyHostname, all[..k]) else []
      {
        assert all[..k + 1][..k] == all[..k];
        if all[k].status.Online? {
          var ok := upstream.Send(P.AnnounceRecord(proxyHostname, all[k]));
          if !ok {
            return;
          }
        }
      }
      assert all[..|all|] == all;
    }

    method ClearPending()
      modifies this`pendingRequests
      ensures pendingRequests == map[]
    {
      var todo := pendingRequests.Keys;
      while todo != {}
        invariant pendingRequests.Keys == todo
        decreases todo
      {
        var k :| k in todo;
        todo := todo - {k};
        pendingRequests := pendingRequests - {k};
      }
    }

    /** One turn of the receive loop of the node that registered with `req`. */
    method HandleMessage(s: StreamId, req: Message, m: Incoming) returns (down: seq<P.Output>)
      requires reg.Valid() && req.RegisterRequest?
      modifies this`pendingRequests, upstream`wire, reg.records.Values
      ensures reg.Valid()
      ensures reg.View() == NodeTable(old(reg.View()), req.hostname, m)
      ensures pendingRequests == NodePending(old(pendingRequests), m)
      ensures down == NodeDown(s, m)
      ensures upstream.wire == old(upstream.wire) +
                if upstream.Connected() then NodeUp(proxyHostname, old(reg.View()), req.hostname, m) else []
    {
      down := [];
      if m.msg.Heartbeat? {
        reg.UpdateHeartbeat(req.hostname, m.now);
        down := [P.Down(s, HeartbeatAck(m.msg.timestamp))];
        Announce(req.hostname);
      } else if m.msg.IsReply() {
        pendingRequests := pendingRequests - {m.msg.requestId};
        var _ := upstream.Send(m.msg);
      }
    }

    /** Tells upstream of one node, to keep it from going stale there. */
    method Announce(hostname: Host)
      requires reg.Valid()
      modifies upstream`wire
      ensures upstream.wire == old(upstream.wire) +
                if upstream.Connected() && hostname in reg.View()
                  then [P.AnnounceRecord(proxyHostname, reg.View()[hostname])] else []
    {
      var rec := reg.Lookup(hostname);
      if rec != null {
        var _ := upstream.Send(P.AnnounceRecord(proxyHostname, rec.View()));
      }
    }

    /** Connect on downstream stream `s`: registry, pending map, what went upstream
        and what went down are those of the handler's actions in the proxy machine. */
    method Connect(s: StreamId, first: Incoming, authOk: bool, ackOk: bool, inbox: seq<Incoming>)
      returns (down: seq<P.Output>)
      requires reg.Valid()
      modifies this`pendingRequests, upstream`wire, reg, reg.records.Values
      ensures reg.Valid()
      ensures var es := ConnectEvents(s, first, authOk, ackOk, inbox);
              && reg.View() == P.Run(old(View()), es).reg
              && pendingRequests == P.Run(old(View()), es).pending
              && down == P.Downs(Said(old(View()), es))
              && upstream.wire == old(upstream.wire) + if upstream.Connected() then P.Ups(Said(old(View()), es)) else []
      ensures first.msg.RegisterRequest? && authOk ==> forall h :: h in reg.View() ==> reg.View()[h].route != s
    {
      ghost var before, pending := reg.View(), pendingRequests;
      if !first.msg.RegisterRequest? || !authOk {
        down := if first.msg.RegisterRequest? then [P.Down(s, RegisterAck(false))] else [];
        NotServed(proxyHostname, before, pending, s, first, authOk, ackOk, inbox);
      } else {
        down := Serve(s, first, ackOk, inbox);
        if ackOk {
          Served(proxyHostname, before, pending, s, first, inbox);
        } else {
          NotServed(proxyHostname, before, pending, s, first, authOk, ackOk, inbox);
        }
      }
    }

    /** The part of Connect that runs for an authenticated node. */
    method Serve(s: StreamId, first: Incoming, ackOk: bool, inbox: seq<Incoming>) returns (down: seq<P.Output>)
      requires reg.Valid() && first.msg.RegisterRequest?
      modifies this`pendingRequests, upstream`wire, reg, reg.records.Values
      ensures reg.Valid()
      ensures var added := old(reg.View())[first.msg.hostname := RecordFor(first.msg, s, first.now)];
              var st := Serving(proxyHostname, added, old(pendingRequests), s, first.msg);
              var end := if ackOk then P.Run(st, LoopEvents(s, inbox)) else st;
              && reg.View() == R.WithoutStream(end.reg, s)
              && pendingRequests == end.pending
              && down == (if ackOk
                then [P.Down(s, RegisterAck(true))] + P.Downs(Said(st, LoopEvents(s, inbox))) else [])
              && upstream.wire == old(upstream.wire) +
                   if ackOk && upstream.Connected()
                   then [P.AnnounceRecord(proxyHostname, RecordFor(first.msg, s, first.now))]
                     + P.Ups(Said(st, LoopEvents(s, inbox)))
                   else []
    {
      Admit(s, first);
      down := [];
      if ackOk {
        down := Greeted(s, first, inbox);
        down := [P.Down(s, RegisterAck(true))] + down;
      }
      Cleanup(s);
    }

    method Greeted(s: StreamId, first: Incoming, inbox: seq<Incoming>) returns (down: seq<P.Output>)
      requires reg.Valid() && first.msg.RegisterRequest?
      modifies this`pendingRequests, upstream`wire, reg.records.Values
      ensures reg.Valid()
      ensures Serving(proxyHostname, reg.View(), pendingRequests, s, first.msg)
              == P.Run(Serving(proxyHostname, old(reg.View()), old(pendingRequests), s, first.msg),
                LoopEvents(s, inbox))
      ensures down == P.Downs(Said(Serving(proxyHostname, old(reg.View()), old(pendingRequests), s, first.msg),
        LoopEvents(s, inbox)))
      ensures upstream.wire == old(upstream.wire) +
                if upstream.Connected()
                then [P.AnnounceRecord(proxyHostname, RecordFor(first.msg, s, first.now))]
                     + P.Ups(Said(Serving(proxyHostname, old(reg.View()), old(pendingRequests), s, first.msg),
                       LoopEvents(s, inbox)))
                else []
    {
      ghost var before := upstream.wire;
      var hello := P.AnnounceRecord(proxyHostname, RecordFor(first.msg, s, first.now));
      var _ := upstream.Send(hello);
      down := Loop(s, first.msg, inbox);
      ghost var st := Serving(proxyHostname, old(reg.View()), old(pendingRequests), s, first.msg);
      Assoc(before, [hello], P.Ups(Said(st, LoopEvents(s, inbox))));
    }

    method Cleanup(s: StreamId)
      requires reg.Valid()
      modifies reg`records
      ensures reg.Valid() && reg.View() == R.WithoutStream(old(reg.View()), s)
    {
      var _ := reg.UnregisterByStream(s);
    }

    method Admit(s: StreamId, first: Incoming)
      requires reg.Valid() && first.msg.RegisterRequest?
      modifies reg
      ensures reg.Valid()
      ensures forall h :: h in reg.records ==> reg.records[h] in old(reg.records).Values || fresh(reg.records[h])
      ensures reg.View() == old(reg.View())[first.msg.hostname := RecordFor(first.msg, s, first.now)]
    {
      var rec := new R.AgentRecord(first.msg.hostname, first.msg.info, first.msg.nodeType, first.msg.path, first.now,
        s);
      reg.Register(rec);
    }

    /** The receive loop of stream `s`: exactly the handler's actions in the proxy machine. */
    method Loop(s: StreamId, req: Message, inbox: seq<Incoming>) returns (down: seq<P.Output>)
      requires reg.Valid() && req.RegisterRequest?
      modifies this`pendingRequests, upstream`wire, reg.records.Values
      ensures reg.Valid()
      ensures var st := Serving(proxyHostname, old(reg.View()), old(pendingRequests), s, req);
              && Serving(proxyHostname, reg.View(), pendingRequests, s, req) == P.Run(st, LoopEvents(s, inbox))
              && down == P.Downs(Said(st, LoopEvents(s, inbox)))
              && upstream.wire == old(upstream.wire) + if upstream.Connected()
                then P.Ups(Said(st, LoopEvents(s, inbox))) else []
    {
      ghost var st := Serving(proxyHostname, reg.View(), pendingRequests, s, req);
      down := [];
      for k := 0 to |inbox|
        invariant reg.Valid()
        invariant Serving(proxyHostname, reg.View(), pendingRequests, s, req) == P.Run(st, LoopEvents(s, inbox[..k]))
        invariant down == P.Downs(Said(st, LoopEvents(s, inbox[..k])))
        invariant upstream.wire == old(upstream.wire) +
                    if upstream.Connected() then P.Ups(Said(st, LoopEvents(s, inbox[..k]))) else []
      {
        LoopTurn(st, proxyHostname, reg.View(), pendingRequests, s, req, inbox, k);
        var more := HandleMessage(s, req, inbox[k]);
        down := down + more;
      }
      assert inbox[..|inbox|] == inbox;
    }
  }

  lemma LoopTurn(st: P.State, name: Host, reg: R.Table, pending: map<RequestId, Host>, s: StreamId, req: Message,
      inbox: seq<Incoming>, k: nat)
    requires req.RegisterRequest? && k < |inbox|
    requires Serving(name, reg, pending, s, req) == P.Run(st, LoopEvents(s, inbox[..k]))
    ensures P.Run(st, LoopEvents(s, inbox[..k + 1]))
            == Serving(name, NodeTable(reg, req.hostname, inbox[k]), NodePending(pending, inbox[k]), s, req)
    ensures P.Downs(Said(st, LoopEvents(s, inbox[..k + 1]))) ==
      P.Downs(Said(st, LoopEvents(s, inbox[..k]))) + NodeDown(s, inbox[k])
    ensures P.Ups(Said(st, LoopEvents(s, inbox[..k + 1])))
            == P.Ups(Said(st, LoopEvents(s, inbox[..k]))) + NodeUp(name, reg, req.hostname, inbox[k])
  {
    assert inbox[..k + 1][..k] == inbox[..k];
    NodeTurn(name, reg, pending, s, req, inbox[k]);
    RunThen(st, LoopEvents(s, inbox[..k]), NodeEvents(s, inbox[k]));
    P.SplitOutputs(Said(st, LoopEvents(s, inbox[..k])),
      Said(P.Run(st, LoopEvents(s, inbox[..k])), NodeEvents(s, inbox[k])));
  }

  // --- all of Connect ---

  function ConnectEvents(s: StreamId, first: Incoming, authOk: bool, ackOk: bool, inbox: seq<Incoming>): seq<P.Event> {
    [P.Accept(s, first.msg, authOk, first.now), P.Ack(s, ackOk)] + (LoopEvents(s, inbox) + [P.Close(s)])
  }

  function Idle(name: Host, reg: R.Table, handlers: map<StreamId, P.Handler>, pending: map<RequestId, Host>): P.State {
    P.State(name, reg, handlers, pending, P.Idle)
  }

  function RecordFor(req: Message, s: StreamId, now: int): R.Record
    requires req.RegisterRequest?
  {
    R.Record(req.hostname, req.info, req.nodeType, req.path, now, now, R.Online, s)
  }

  lemma {:induction false} QuietLoop(st: P.State, s: StreamId, inbox: seq<Incoming>)
    requires s in st.handlers && st.handlers[s].Finished?
    ensures P.Run(st, LoopEvents(s, inbox)) == st && Said(st, LoopEvents(s, inbox)) == []
    decreases |inbox|
  {
    if inbox != [] {
      var m := inbox[|inbox| - 1];
      QuietLoop(st, s, inbox[..|inbox| - 1]);
      RunThen(st, LoopEvents(s, inbox[..|inbox| - 1]), NodeEvents(s, m));
      if m.msg.Heartbeat? {
        Cons(st, P.Beat(s, m.msg.timestamp, m.now), []);
        assert NodeEvents(s, m) == [P.Beat(s, m.msg.timestamp, m.now)] + [];
      } else if m.msg.IsReply() {
        RunTwo(st, P.TakeReply(s, m.msg), P.Relay(s));
      }
    }
  }

  /** A refused or unacknowledged node: whatever it sends is not read. */
  lemma NotServed(name: Host, reg: R.Table, pending: map<RequestId, Host>, s: StreamId, first: Incoming, authOk: bool,
      ackOk: bool, inbox: seq<Incoming>)
    requires !first.msg.RegisterRequest? || !authOk || !ackOk
    ensures var es := ConnectEvents(s, first, authOk, ackOk, inbox);
            var end := P.Run(Idle(name, reg, map[], pending), es);
            && end.pending == pending
            && end.reg == (if first.msg.RegisterRequest? && authOk
                           then R.WithoutStream(reg[first.msg.hostname := RecordFor(first.msg, s, first.now)], s)
                             else reg)
            && P.Ups(Said(Idle(name, reg, map[], pending), es)) == []
            && P.Downs(Said(Idle(name, reg, map[], pending), es)) == Refusals(s, first, authOk)
  {
    var st := Idle(name, reg, map[], pending);
    var a, k := P.Accept(s, first.msg, authOk, first.now), P.Ack(s, ackOk);
    RunThen(st, [a, k], LoopEvents(s, inbox) + [P.Close(s)]);
    Turned(name, reg, pending, s, first, authOk, ackOk);
    var s2 := P.Run(st, [a, k]);
    RunThen(s2, LoopEvents(s, inbox), [P.Close(s)]);
    QuietLoop(s2, s, inbox);
    Cons(s2, P.Close(s), []);
    assert [P.Close(s)] == [P.Close(s)] + [];
    assert Said(s2, LoopEvents(s, inbox) + [P.Close(s)]) == [];
    P.SplitOutputs(Said(st, [a, k]), []);
  }

  /** What a node that is not admitted hears. */
  function Refusals(s: StreamId, first: Incoming, authOk: bool): seq<P.Output> {
    if first.msg.RegisterRequest? && !authOk then [P.Down(s, RegisterAck(false))] else []
  }

  lemma Turned(name: Host, reg: R.Table, pending: map<RequestId, Host>, s: StreamId, first: Incoming, authOk: bool,
      ackOk: bool)
    requires !first.msg.RegisterRequest? || !authOk || !ackOk
    ensures var es := [P.Accept(s, first.msg, authOk, first.now), P.Ack(s, ackOk)];
            var st := Idle(name, reg, map[], pending);
            var kept := if first.msg.RegisterRequest? && authOk
                        then R.WithoutStream(reg[first.msg.hostname := RecordFor(first.msg, s, first.now)], s) else reg;
            && P.Run(st, es) == Idle(name, kept, map[s := P.Finished], pending)
            && P.Ups(Said(st, es)) == [] && P.Downs(Said(st, es)) == Refusals(s, first, authOk)
  {
    var st := Idle(name, reg, map[], pending);
    var a, k := P.Accept(s, first.msg, authOk, first.now), P.Ack(s, ackOk);
    RunTwo(st, a, k);
    if first.msg.RegisterRequest? && authOk {
      assert P.Apply(st, a).handlers == map[s := P.Registered(first.msg)];
    }
    assert P.Outputs(P.Apply(st, a), k) == [] && P.Outputs(st, a) == Refusals(s, first, authOk);
  }

  /** A served node: admission, ack and announcement, then the loop, then cleanup. */
  lemma Served(name: Host, reg: R.Table, pending: map<RequestId, Host>, s: StreamId, first: Incoming,
      inbox: seq<Incoming>)
    requires first.msg.RegisterRequest?
    ensures var es := ConnectEvents(s, first, true, true, inbox);
            var end := P.Run(Idle(name, reg, map[], pending), es);
            var st := Serving(name, reg[first.msg.hostname := RecordFor(first.msg, s, first.now)], pending, s,
              first.msg);
            var looped := P.Run(st, LoopEvents(s, inbox));
            && end.pending == looped.pending && end.reg == R.WithoutStream(looped.reg, s)
            && P.Ups(Said(Idle(name, reg, map[], pending), es))
               == [P.AnnounceRecord(name, RecordFor(first.msg, s, first.now))] + P.Ups(Said(st, LoopEvents(s, inbox)))
            && P.Downs(Said(Idle(name, reg, map[], pending), es))
               == [P.Down(s, RegisterAck(true))] + P.Downs(Said(st, LoopEvents(s, inbox)))
  {
    var start, rest := Idle(name, reg, map[], pending), LoopEvents(s, inbox) + [P.Close(s)];
    var a, k := P.Accept(s, first.msg, true, first.now), P.Ack(s, true);
    var added := reg[first.msg.hostname := RecordFor(first.msg, s, first.now)];
    var st := Serving(name, added, pending, s, first.msg);
    RunThen(start, [a, k], rest);
    Welcomed(name, reg, pending, s, first);
    P.SplitOutputs(Said(start, [a, k]), Said(st, rest));
    LoopAndClose(name, added, pending, s, first.msg, inbox);
  }

  lemma Welcomed(name: Host, reg: R.Table, pending: map<RequestId, Host>, s: StreamId, first: Incoming)
    requires first.msg.RegisterRequest?
    ensures var es := [P.Accept(s, first.msg, true, first.now), P.Ack(s, true)];
            var start := Idle(name, reg, map[], pending);
            && P.Run(start, es) ==
              Serving(name, reg[first.msg.hostname := RecordFor(first.msg, s, first.now)], pending, s, first.msg)
            && P.Ups(Said(start, es)) == [P.AnnounceRecord(name, RecordFor(first.msg, s, first.now))]
            && P.Downs(Said(start, es)) == [P.Down(s, RegisterAck(true))]
  {
    var start := Idle(name, reg, map[], pending);
    var a, k := P.Accept(s, first.msg, true, first.now), P.Ack(s, true);
    var added := reg[first.msg.hostname := RecordFor(first.msg, s, first.now)];
    RunTwo(start, a, k);
    assert P.Apply(start, a) == Idle(name, added, map[s := P.Registered(first.msg)], pending);
    assert P.Apply(P.Apply(start, a), k) == Serving(name, added, pending, s, first.msg);
    var ack, hello := P.Down(s, RegisterAck(true)), P.Up(P.AnnounceRecord(name, RecordFor(first.msg, s, first.now)));
    assert Said(start, [a, k]) == [ack] + [hello];
    P.SplitOutputs([ack], [hello]);
  }

  lemma LoopAndClose(name: Host, reg: R.Table, pending: map<RequestId, Host>, s: StreamId, req: Message,
      inbox: seq<Incoming>)
    requires req.RegisterRequest?
    ensures var st := Serving(name, reg, pending, s, req);
            var looped := P.Run(st, LoopEvents(s, inbox));
            var end := P.Run(st, LoopEvents(s, inbox) + [P.Close(s)]);
            && end.pending == looped.pending && end.reg == R.WithoutStream(looped.reg, s)
            && Said(st, LoopEvents(s, inbox) + [P.Close(s)]) == Said(st, LoopEvents(s, inbox))
  {
    var st := Serving(name, reg, pending, s, req);
    RunThen(st, LoopEvents(s, inbox), [P.Close(s)]);
    StaysServing(name, reg, pending, s, req, inbox);
    Cons(P.Run(st, LoopEvents(s, inbox)), P.Close(s), []);
    assert [P.Close(s)] == [P.Close(s)] + [];
  }

  lemma {:induction false} StaysServing(name: Host, reg: R.Table, pending: map<RequestId, Host>, s: StreamId,
      req: Message, inbox: seq<Incoming>)
    requires req.RegisterRequest?
    ensures var end := P.Run(Serving(name, reg, pending, s, req), LoopEvents(s, inbox));
            end == Serving(name, end.reg, end.pending, s, req)
    decreases |inbox|
  {
    if inbox != [] {
      var init := inbox[..|inbox| - 1];
      StaysServing(name, reg, pending, s, req, init);
      var mid := P.Run(Serving(name, reg, pending, s, req), LoopEvents(s, init));
      RunThen(Serving(name, reg, pending, s, req), LoopEvents(s, init), NodeEvents(s, inbox[|inbox| - 1]));
      NodeTurn(name, mid.reg, mid.pending, s, req, inbox[|inbox| - 1]);
    }
  }

  // --- what a full re-registration would say ---

  function AnnounceOnline(name: Host, recs: seq<R.Record>): seq<Message>
    decreases |recs|
  {
    if recs == [] then []
    else AnnounceOnline(name, recs[..|recs| - 1]) +
         var r := recs[|recs| - 1]; if r.status.Online? then [P.AnnounceRecord(name, r)] else []
  }

  ghost predicate DistinctHosts(told: seq<Message>) {
    forall i, j :: 0 <= i < j < |told| ==>
      told[i].RegisterRequest? && told[j].RegisterRequest? && told[i].hostname != told[j].hostname
  }

  /** `told` names every online host of the table, with the proxy's name in front
      of its path, and each host once. */
  ghost predicate Announces(told: seq<Message>, name: Host, reg: R.Table) {
    && (forall h :: h in reg && reg[h].status.Online? ==>
      exists m :: m in told && m.RegisterRequest? && m.hostname == h)
    && (forall m :: m in told ==>
          && m.RegisterRequest? && m.hostname in reg && reg[m.hostname].status.Online?
          && m.nodeType == reg[m.hostname].nodeType && m.path == [name] + reg[m.hostname].path
          && m.info == reg[m.hostname].info)
    && DistinctHosts(told)
  }

  lemma {:induction false} AnnounceMembers(name: Host, recs: seq<R.Record>, m: Message)
    ensures m in AnnounceOnline(name, recs) <==>
      exists k :: 0 <= k < |recs| && recs[k].status.Online? && m == P.AnnounceRecord(name, recs[k])
    decreases |recs|
  {
    if recs != [] {
      var init := recs[..|recs| - 1];
      AnnounceMembers(name, init, m);
      assert forall k :: 0 <= k < |init| ==> init[k] == recs[k];
    }
  }

  predicate DistinctNames(recs: seq<R.Record>) {
    forall i, j :: 0 <= i < j < |recs| ==> recs[i].hostname != recs[j].hostname
  }

  lemma NotBefore(name: Host, init: seq<R.Record>, last: R.Record)
    requires DistinctNames(init + [last])
    ensures forall m :: m in AnnounceOnline(name, init) ==> m.RegisterRequest? && m.hostname != last.hostname
  {
    forall m | m in AnnounceOnline(name, init) ensures m.RegisterRequest? && m.hostname != last.hostname {
      AnnounceMembers(name, init, m);
      var k :| 0 <= k < |init| && init[k].status.Online? && m == P.AnnounceRecord(name, init[k]);
      assert (init + [last])[k] == init[k] && (init + [last])[|init|] == last;
    }
  }

  lemma {:induction false} AnnouncedOnce(name: Host, recs: seq<R.Record>)
    requires DistinctNames(recs)
    ensures DistinctHosts(AnnounceOnline(name, recs))
    decreases |recs|
  {
    if recs != [] {
      var init, last := recs[..|recs| - 1], recs[|recs| - 1];
      assert recs == init + [last];
      AnnouncedOnce(name, init);
      NotBefore(name, init, last);
      if last.status.Online? {
        DistinctSnoc(AnnounceOnline(name, init), P.AnnounceRecord(name, last));
      } else {
        assert AnnounceOnline(name, recs) == AnnounceOnline(name, init);
      }
    }
  }

  lemma DistinctSnoc(told: seq<Message>, m: Message)
    requires DistinctHosts(told) && m.RegisterRequest?
    requires forall t :: t in told ==> t.RegisterRequest? && t.hostname != m.hostname
    ensures DistinctHosts(told + [m])
  {
    assert forall i :: 0 <= i < |told| ==> told[i] in told;
  }

  lemma AnnouncesAll(name: Host, recs: seq<R.Record>, reg: R.Table)
    requires DistinctNames(recs) && R.Keyed(reg)
    requires forall r :: r in recs <==> r.hostname in reg && reg[r.hostname] == r
    ensures Announces(AnnounceOnline(name, recs), name, reg)
  {
    var told := AnnounceOnline(name, recs);
    AnnouncedOnce(name, recs);
    forall m | m in told
      ensures m.RegisterRequest? && m.hostname in R.OnlineHosts(reg) && m == P.AnnounceRecord(name, reg[m.hostname])
    {
      AnnounceMembers(name, recs, m);
      var k :| 0 <= k < |recs| && recs[k].status.Online? && m == P.AnnounceRecord(name, recs[k]);
      assert recs[k] in recs;
    }
    forall h | h in R.OnlineHosts(reg) ensures P.AnnounceRecord(name, reg[h]) in told {
      assert reg[h] in recs;
      AnnounceMembers(name, recs, P.AnnounceRecord(name, reg[h]));
    }
  }
}
