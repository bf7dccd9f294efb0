/** Center's handler of one stream, as the program runs it: the receive loop of
    Connect over the shared registry and router objects. */
module CenterService {
  import opened Tunnel
  import R = Registry
  import M = RouterMachine
  import C = Center
  import S = RouterService

  /** A run of center seen from one handler, and what it sends. */
  function Said(st: C.State, es: seq<C.Event>): seq<C.Output>
    decreases |es|
  {
    if es == [] then [] else C.Outputs(st, es[0]) + Said(C.Apply(st, es[0]), es[1..])
  }

  lemma {:induction false} RunThen(st: C.State, a: seq<C.Event>, b: seq<C.Event>)
    ensures C.Run(st, a + b) == C.Run(C.Run(st, a), b)
    ensures Said(st, a + b) == Said(st, a) + Said(C.Run(st, a), b)
    decreases |a|
  {
    if a == [] {
      assert a + b == b;
    } else {
      assert (a + b)[0] == a[0] && (a + b)[1..] == a[1..] + b;
      RunThen(C.Apply(st, a[0]), a[1..], b);
    }
  }

  /** What the handler of `s` does with one message: the last two steps act only
      when the first has found an unknown forwarded host. */
  function MessageEvents(s: StreamId, msg: Message, now: int, persistOk: bool): seq<C.Event> {
    [C.Receive(s, msg, now), C.Add(s, now), C.Persisted(s, persistOk)]
  }

  /** An incoming message, when it is read, and what the store would answer. */
  datatype Incoming = Incoming(msg: Message, now: int, persistOk: bool)

  function LoopEvents(s: StreamId, inbox: seq<Incoming>): seq<C.Event>
    decreases |inbox|
  {
    if inbox == [] then []
    else LoopEvents(s, inbox[..|inbox| - 1]) +
         var m := inbox[|inbox| - 1]; MessageEvents(s, m.msg, m.now, m.persistOk)
  }

  function Replies(inbox: seq<Incoming>): seq<Message>
    decreases |inbox|
  {
    if inbox == [] then []
    else Replies(inbox[..|inbox| - 1]) +
         var m := inbox[|inbox| - 1]; if m.msg.IsReply() then [m.msg] else []
  }

  /** All of Connect: admission, ack, the loop until the stream ends, cleanup. */
  function ConnectEvents(s: StreamId, first: Incoming, authOk: bool, ackOk: bool, inbox: seq<Incoming>): seq<C.Event> {
    [C.Accept(s, first.msg, authOk, first.persistOk, first.now), C.Ack(s, ackOk)]
      + (LoopEvents(s, inbox) + [C.Close(s)])
  }

  /** Center as the handler finds it: a registry, and no handler on `s` yet. */
  function Fresh(reg: R.Table): C.State {
    C.State(reg, map[], M.EMPTY)
  }

  function Open(reg: R.Table, s: StreamId, host: Host): C.State {
    C.State(reg, map[s := C.Serving(host)], M.EMPTY)
  }

  lemma Cons(st: C.State, e: C.Event, rest: seq<C.Event>)
    ensures C.Run(st, [e] + rest) == C.Run(C.Apply(st, e), rest)
    ensures Said(st, [e] + rest) == C.Outputs(st, e) + Said(C.Apply(st, e), rest)
  {
    assert ([e] + rest)[1..] == rest;
  }

  lemma RunThree(st: C.State, e0: C.Event, e1: C.Event, e2: C.Event)
    ensures var s1 := C.Apply(st, e0);
            var s2 := C.Apply(s1, e1);
            && C.Run(st, [e0, e1, e2]) == C.Apply(s2, e2)
            && Said(st, [e0, e1, e2]) == C.Outputs(st, e0) + C.Outputs(s1, e1) + C.Outputs(s2, e2)
  {
    var s1 := C.Apply(st, e0);
    assert [e0, e1, e2] == [e0] + ([e1] + ([e2] + []));
    Cons(st, e0, [e1] + ([e2] + []));
    Cons(s1, e1, [e2] + []);
    Cons(C.Apply(s1, e1), e2, []);
  }

  /** The registry after one turn of the loop, and what the turn sends. */
  function Turn(reg: R.Table, s: StreamId, host: Host, m: Incoming): R.Table {
    match m.msg
    case Heartbeat(_) => R.Beaten(reg, host, m.now)
    case RegisterRequest(h, _, _, _) =>
      if h in reg then R.Beaten(reg, h, m.now)
      else if m.persistOk then reg[h := C.RecordFor(m.msg, s, m.now)] else reg
    case _ => reg
  }

  function TurnSays(s: StreamId, m: Incoming): seq<C.Output> {
    if m.msg.Heartbeat? then [C.Down(s, HeartbeatAck(m.msg.timestamp))] else []
  }

  /** A turn is what the center machine does with the message. */
  lemma OneMessage(reg: R.Table, s: StreamId, host: Host, m: Incoming)
    ensures C.Run(Open(reg, s, host), MessageEvents(s, m.msg, m.now, m.persistOk)) ==
      Open(Turn(reg, s, host, m), s, host)
    ensures Said(Open(reg, s, host), MessageEvents(s, m.msg, m.now, m.persistOk)) == TurnSays(s, m)
  {
    RunThree(Open(reg, s, host), C.Receive(s, m.msg, m.now), C.Add(s, m.now), C.Persisted(s, m.persistOk));
    if m.msg.RegisterRequest? && m.msg.hostname !in reg && !m.persistOk {
      assert reg[m.msg.hostname := C.RecordFor(m.msg, s, m.now)] - {m.msg.hostname} == reg;
    }
  }

  class TunnelServer {
    const reg: R.Registry
    const rtr: S.Router

    constructor (reg: R.Registry, rtr: S.Router)
      ensures this.reg == reg && this.rtr == rtr
    {
      this.reg, this.rtr := reg, rtr;
    }

    /** One turn of the receive loop for the node that registered as `host`. */
    method HandleMessage(s: StreamId, host: Host, m: Incoming) returns (sent: seq<C.Output>)
      requires reg.Valid() && rtr.Valid()
      modifies reg, reg.records.Values, rtr.pending.Values
      ensures reg.Valid() && rtr.Valid() && rtr.pending == old(rtr.pending)
      ensures forall h :: h in reg.records && h !in old(reg.records) ==> fresh(reg.records[h])
      ensures forall h :: h in reg.records && h in old(reg.records) ==> reg.records[h] == old(reg.records[h])
      ensures reg.View() == Turn(old(reg.View()), s, host, m) && sent == TurnSays(s, m)
      ensures rtr.View() == S.OfferedAll(old(rtr.View()), if m.msg.IsReply() then [m.msg] else [])
    {
      sent := [];
      match m.msg {
        case Heartbeat(timestamp) =>
          reg.UpdateHeartbeat(host, m.now);
          sent := [C.Down(s, HeartbeatAck(timestamp))];
        case ToolResponse(_, _) =>
          rtr.DeliverFromMessage(m.msg);
        case ErrorResponse(_, _, _) =>
          rtr.DeliverFromMessage(m.msg);
        case RegisterRequest(hostname, nodeType, path, info) =>
          HandleForwarded(s, m);
        case _ =>
      }
    }

    /** A registration forwarded by a proxy: a heartbeat for a known host, a new
        record over this stream for an unknown one. */
    method HandleForwarded(s: StreamId, m: Incoming)
      requires reg.Valid() && m.msg.RegisterRequest?
      modifies reg, reg.records.Values
      ensures reg.Valid()
      ensures forall h :: h in reg.records && h !in old(reg.records) ==> fresh(reg.records[h])
      ensures forall h :: h in reg.records && h in old(reg.records) ==> reg.records[h] == old(reg.records[h])
      ensures reg.View() == Turn(old(reg.View()), s, "", m)
    {
      var known := reg.Lookup(m.msg.hostname);
      if known != null {
        reg.UpdateHeartbeat(m.msg.hostname, m.now);
      } else {
        AddForwarded(s, m);
      }
    }

    method AddForwarded(s: StreamId, m: Incoming)
      requires reg.Valid() && m.msg.RegisterRequest? && m.msg.hostname !in reg.records
      modifies reg
      ensures reg.Valid()
      ensures forall h :: h in reg.records && h !in old(reg.records) ==> fresh(reg.records[h])
      ensures forall h :: h in reg.records && h in old(reg.records) ==> reg.records[h] == old(reg.records[h])
      ensures reg.View() == if m.persistOk
        then old(reg.View())[m.msg.hostname := C.RecordFor(m.msg, s, m.now)] else old(reg.View())
    {
      ghost var before := reg.View();
      var rec := new R.AgentRecord(m.msg.hostname, m.msg.info, m.msg.nodeType, m.msg.path, m.now, s);
      reg.Register(rec);
      if !m.persistOk {
        reg.Unregister(m.msg.hostname);
        assert reg.View() == before;
      }
    }

    /** Connect on stream `s`: `first` is the first message, `inbox` what follows
        until the stream ends; the flags are the answers of the token catalog and
        of the ack's send. The registry and the replies delivered are exactly
        those of the handler's actions in the center machine. */
    method Connect(s: StreamId, first: Incoming, authOk: bool, ackOk: bool, inbox: seq<Incoming>)
      returns (sent: seq<C.Output>)
      requires reg.Valid() && rtr.Valid()
      modifies reg, reg.records.Values, rtr.pending.Values
      ensures reg.Valid() && rtr.Valid()
      ensures var es := ConnectEvents(s, first, authOk, ackOk, inbox);
              && reg.View() == C.Run(Fresh(old(reg.View())), es).reg
              && sent == Said(Fresh(old(reg.View())), es)
      ensures rtr.View() == S.OfferedAll(old(rtr.View()),
                if first.msg.RegisterRequest? && authOk && first.persistOk && ackOk then Replies(inbox) else [])
      ensures first.msg.RegisterRequest? && authOk && first.persistOk ==>
        forall h :: h in reg.View() ==> reg.View()[h].route != s
    {
      ghost var before := reg.View();
      sent := [];
      if !first.msg.RegisterRequest? || !authOk || !first.persistOk {
        if first.msg.RegisterRequest? {
          sent := [C.Down(s, RegisterAck(false))];
        }
        Refused(before, s, first, authOk, ackOk, inbox);
        return;
      }
      sent := Serve(s, first, ackOk, inbox);
    }

    /** The part of Connect that runs for an admitted node. */
    method Serve(s: StreamId, first: Incoming, ackOk: bool, inbox: seq<Incoming>) returns (sent: seq<C.Output>)
      requires reg.Valid() && rtr.Valid()
      requires first.msg.RegisterRequest? && first.persistOk
      modifies reg, reg.records.Values, rtr.pending.Values
      ensures reg.Valid() && rtr.Valid()
      ensures var es := ConnectEvents(s, first, true, ackOk, inbox);
              && reg.View() == C.Run(Fresh(old(reg.View())), es).reg
              && sent == Said(Fresh(old(reg.View())), es)
      ensures rtr.View() == S.OfferedAll(old(rtr.View()), if ackOk then Replies(inbox) else [])
      ensures forall h :: h in reg.View() ==> reg.View()[h].route != s
    {
      ghost var before := reg.View();
      Admit(s, first);
      if !ackOk {
        Cleanup(s);
        AckFailed(before, s, first, inbox);
        sent := [];
      } else {
        var said := Loop(s, first.msg.hostname, inbox);
        Cleanup(s);
        Acked(before, s, first, inbox);
        sent := [C.Down(s, RegisterAck(true))] + said;
      }
    }

    method Admit(s: StreamId, first: Incoming)
      requires reg.Valid() && first.msg.RegisterRequest?
      modifies reg
      ensures reg.Valid()
      ensures forall h :: h in reg.records ==> reg.records[h] in old(reg.records).Values || fresh(reg.records[h])
      ensures reg.View() == old(reg.View())[first.msg.hostname := C.RecordFor(first.msg, s, first.now)]
    {
      var rec := new R.AgentRecord(first.msg.hostname, first.msg.info, first.msg.nodeType, first.msg.path, first.now,
        s);
      reg.Register(rec);
    }

    method Cleanup(s: StreamId)
      requires reg.Valid()
      modifies reg`records
      ensures reg.Valid() && reg.View() == R.WithoutStream(old(reg.View()), s)
    {
      var _ := reg.UnregisterByStream(s);
    }

    method Loop(s: StreamId, host: Host, inbox: seq<Incoming>) returns (sent: seq<C.Output>)
      requires reg.Valid() && rtr.Valid()
      modifies reg, reg.records.Values, rtr.pending.Values
      ensures reg.Valid() && rtr.Valid()
      ensures var st := Open(old(reg.View()), s, host);
              && reg.View() == C.Run(st, LoopEvents(s, inbox)).reg
              && sent == Said(st, LoopEvents(s, inbox))
      ensures rtr.View() == S.OfferedAll(old(rtr.View()), Replies(inbox))
    {
      ghost var before := Open(reg.View(), s, host);
      ghost var objects := reg.records;
      sent := [];
      for k := 0 to |inbox|
        invariant reg.Valid() && rtr.Valid() && rtr.pending == old(rtr.pending)
        invariant forall h :: h in reg.records ==> reg.records[h] in old(reg.records).Values || fresh(reg.records[h])
        invariant C.Run(before, LoopEvents(s, inbox[..k])) == Open(reg.View(), s, host)
        invariant sent == Said(before, LoopEvents(s, inbox[..k]))
        invariant rtr.View() == S.OfferedAll(old(rtr.View()), Replies(inbox[..k]))
      {
        LoopTurn(before, reg.View(), s, host, old(rtr.View()), inbox, k);
        var said := HandleMessage(s, host, inbox[k]);
        sent := sent + said;
      }
      assert inbox[..|inbox|] == inbox;
    }
  }

  /** The `k`-th turn of the loop, as a run. */
  lemma LoopTurn(before: C.State, reg: R.Table, s: StreamId, host: Host, slots: S.Slots, inbox: seq<Incoming>, k: nat)
    requires k < |inbox| && C.Run(before, LoopEvents(s, inbox[..k])) == Open(reg, s, host)
    ensures C.Run(before, LoopEvents(s, inbox[..k + 1])) == Open(Turn(reg, s, host, inbox[k]), s, host)
    ensures Said(before, LoopEvents(s, inbox[..k + 1])) ==
      Said(before, LoopEvents(s, inbox[..k])) + TurnSays(s, inbox[k])
    ensures S.OfferedAll(slots, Replies(inbox[..k + 1]))
         == S.OfferedAll(S.OfferedAll(slots, Replies(inbox[..k])), if inbox[k].msg.IsReply()
           then [inbox[k].msg] else [])
  {
    var m := inbox[k];
    assert inbox[..k + 1][..k] == inbox[..k];
    OneMessage(reg, s, host, m);
    RunThen(before, LoopEvents(s, inbox[..k]), MessageEvents(s, m.msg, m.now, m.persistOk));
    OfferedThen(slots, Replies(inbox[..k]), if m.msg.IsReply() then [m.msg] else []);
  }

  lemma {:induction false} OfferedThen(slots: S.Slots, a: seq<Message>, b: seq<Message>)
    ensures S.OfferedAll(slots, a + b) == S.OfferedAll(S.OfferedAll(slots, a), b)
    decreases |a|
  {
    if a == [] {
      assert a + b == b;
    } else {
      assert (a + b)[0] == a[0] && (a + b)[1..] == a[1..] + b;
      OfferedThen(S.Offered(slots, a[0]), a[1..], b);
    }
  }

  // --- the three ways Connect can go, as runs ---

  /** Nothing happens on a stream whose handler is not at the step. */
  lemma {:induction false} QuietLoop(st: C.State, s: StreamId, inbox: seq<Incoming>)
    requires s in st.handlers && st.handlers[s].Finished?
    ensures C.Run(st, LoopEvents(s, inbox)) == st && Said(st, LoopEvents(s, inbox)) == []
    decreases |inbox|
  {
    if inbox != [] {
      var m := inbox[|inbox| - 1];
      QuietLoop(st, s, inbox[..|inbox| - 1]);
      RunThen(st, LoopEvents(s, inbox[..|inbox| - 1]), MessageEvents(s, m.msg, m.now, m.persistOk));
      RunThree(st, C.Receive(s, m.msg, m.now), C.Add(s, m.now), C.Persisted(s, m.persistOk));
    }
  }

  lemma Ended(st: C.State, s: StreamId, inbox: seq<Incoming>)
    requires s in st.handlers && st.handlers[s].Finished?
    ensures C.Run(st, LoopEvents(s, inbox) + [C.Close(s)]) == st
    ensures Said(st, LoopEvents(s, inbox) + [C.Close(s)]) == []
  {
    QuietLoop(st, s, inbox);
    RunThen(st, LoopEvents(s, inbox), [C.Close(s)]);
  }

  lemma FirstTwo(st: C.State, a: C.Event, k: C.Event, rest: seq<C.Event>)
    ensures var s1 := C.Apply(st, a);
            && C.Run(st, [a, k] + rest) == C.Run(C.Apply(s1, k), rest)
            && Said(st, [a, k] + rest) == C.Outputs(st, a) + C.Outputs(s1, k) + Said(C.Apply(s1, k), rest)
  {
    Cons(st, a, [k] + rest);
    Cons(C.Apply(st, a), k, rest);
    assert [a, k] + rest == [a] + ([k] + rest);
    var s1 := C.Apply(st, a);
    assert Said(st, [a, k] + rest) == C.Outputs(st, a) + (C.Outputs(s1, k) + Said(C.Apply(s1, k), rest));
  }

  lemma Refused(reg: R.Table, s: StreamId, first: Incoming, authOk: bool, ackOk: bool, inbox: seq<Incoming>)
    requires !first.msg.RegisterRequest? || !authOk || !first.persistOk
    ensures var es := ConnectEvents(s, first, authOk, ackOk, inbox);
            && C.Run(Fresh(reg), es).reg == reg
            && Said(Fresh(reg), es) == if first.msg.RegisterRequest? then [C.Down(s, RegisterAck(false))] else []
  {
    var rest := LoopEvents(s, inbox) + [C.Close(s)];
    FirstTwo(Fresh(reg), C.Accept(s, first.msg, authOk, first.persistOk, first.now), C.Ack(s, ackOk), rest);
    Ended(C.State(reg, map[s := C.Finished], M.EMPTY), s, inbox);
  }

  lemma AckFailed(reg: R.Table, s: StreamId, first: Incoming, inbox: seq<Incoming>)
    requires first.msg.RegisterRequest? && first.persistOk
    ensures var es := ConnectEvents(s, first, true, false, inbox);
            && C.Run(Fresh(reg), es).reg ==
              R.WithoutStream(reg[first.msg.hostname := C.RecordFor(first.msg, s, first.now)], s)
            && Said(Fresh(reg), es) == []
  {
    var rest := LoopEvents(s, inbox) + [C.Close(s)];
    var added := reg[first.msg.hostname := C.RecordFor(first.msg, s, first.now)];
    var accept := C.Accept(s, first.msg, true, first.persistOk, first.now);
    FirstTwo(Fresh(reg), accept, C.Ack(s, false), rest);
    assert C.Apply(Fresh(reg), accept) == C.State(added, map[s := C.Registered(first.msg.hostname)], M.EMPTY);
    assert C.Apply(C.Apply(Fresh(reg), accept), C.Ack(s, false)) ==
      C.State(R.WithoutStream(added, s), map[s := C.Finished], M.EMPTY);
    Ended(C.State(R.WithoutStream(added, s), map[s := C.Finished], M.EMPTY), s, inbox);
  }

  lemma Acked(reg: R.Table, s: StreamId, first: Incoming, inbox: seq<Incoming>)
    requires first.msg.RegisterRequest? && first.persistOk
    ensures var es := ConnectEvents(s, first, true, true, inbox);
            var st := Open(reg[first.msg.hostname := C.RecordFor(first.msg, s, first.now)], s, first.msg.hostname);
            && C.Run(Fresh(reg), es).reg == R.WithoutStream(C.Run(st, LoopEvents(s, inbox)).reg, s)
            && Said(Fresh(reg), es) == [C.Down(s, RegisterAck(true))] + Said(st, LoopEvents(s, inbox))
  {
    var rest := LoopEvents(s, inbox) + [C.Close(s)];
    var added := reg[first.msg.hostname := C.RecordFor(first.msg, s, first.now)];
    var st := Open(added, s, first.msg.hostname);
    var accept := C.Accept(s, first.msg, true, first.persistOk, first.now);
    FirstTwo(Fresh(reg), accept, C.Ack(s, true), rest);
    assert C.Apply(Fresh(reg), accept) == C.State(added, map[s := C.Registered(first.msg.hostname)], M.EMPTY);
    assert C.Apply(C.Apply(Fresh(reg), accept), C.Ack(s, true)) == st;
    RunThen(st, LoopEvents(s, inbox), [C.Close(s)]);
    StaysServing(added, s, first.msg.hostname, inbox);
    Cons(C.Run(st, LoopEvents(s, inbox)), C.Close(s), []);
    assert [C.Close(s)] == [C.Close(s)] + [];
  }

  lemma {:induction false} StaysServing(reg: R.Table, s: StreamId, host: Host, inbox: seq<Incoming>)
    ensures C.Run(Open(reg, s, host), LoopEvents(s, inbox)).handlers == map[s := C.Serving(host)]
    ensures C.Run(Open(reg, s, host), LoopEvents(s, inbox)).router == M.EMPTY
    decreases |inbox|
  {
    if inbox != [] {
      var m := inbox[|inbox| - 1];
      var init := LoopEvents(s, inbox[..|inbox| - 1]);
      StaysServing(reg, s, host, inbox[..|inbox| - 1]);
      RunThen(Open(reg, s, host), init, MessageEvents(s, m.msg, m.now, m.persistOk));
      OneMessage(C.Run(Open(reg, s, host), init).reg, s, host, m);
    }
  }
}
