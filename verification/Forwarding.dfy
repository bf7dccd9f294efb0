/** One tool invocation over the center instances: served where the host is
    registered, with at most one hop. */
module Forwarding {
  import opened Tunnel
  import opened Registry

  type CenterId = string

  datatype Reply = Json(text: string) | SendError(text: string)

  datatype Answer = Value(text: string) | NodeNotFound | NodeOffline | Failure(text: string)

  datatype Request = Request(id: RequestId, host: Host)

  /** What an invocation does outside its own memory, in order. */
  datatype Effect =
    | Insert(center: CenterId, req: Request)
    | Send(center: CenterId, record: Record, id: RequestId)
    | Complete(id: RequestId, reply: Reply)

  /** A row of the log of tool calls; there is one to an id. */
  datatype Row = Row(center: CenterId, host: Host, written: Option<Reply>)

  type Log = map<RequestId, Row>

  /** The shared database as one invocation finds it: where each host was last
      registered, which instance answers at the address of each, and whether it
      can be queried at all. */
  datatype Store = Store(home: map<Host, CenterId>, address: map<CenterId, CenterId>, down: bool)

  datatype Centers = Centers(tables: map<CenterId, Table>, store: Store, reachable: set<CenterId>)

  /** What the node behind a record answers. */
  type Node = (Record, RequestId) -> Reply

  function Answered(r: Reply): Answer {
    match r
    case Json(text) => Value(text)
    case SendError(text) => Failure(text)
  }

  /** What the node said is what the caller gets: its JSON text as the value, or
      its error. `written` is what the log gets. */
  predicate Passes(a: Answer, written: Reply, said: Reply) {
    && written == said
    && (said.Json? ==> a.Value? && a.text == said.text)
    && (said.SendError? ==> a.Failure? && a.text == said.text)
  }

  // --- where a request ends up ---

  predicate Local(cs: Centers, me: CenterId, host: Host) {
    me in cs.tables && host in cs.tables[me]
  }

  predicate Serves(r: Record) {
    r.nodeType.Agent? && r.status.Online?
  }

  /** The instance that a request for a host unknown here is forwarded to. */
  function Remote(cs: Centers, me: CenterId, host: Host): Option<CenterId> {
    if cs.store.down || host !in cs.store.home || cs.store.home[host] == me
      || cs.store.home[host] !in cs.store.address then None
    else
      var there := cs.store.address[cs.store.home[host]];
      if there in cs.reachable && there in cs.tables then Some(there) else None
  }

  /** The database places the host at another instance and knows its address. */
  predicate Addressed(cs: Centers, me: CenterId, host: Host) {
    host in cs.store.home && cs.store.home[host] != me && cs.store.home[host] in cs.store.address
  }

  /** The instance that sends the request to a node, if any does. */
  function SenderOf(cs: Centers, me: CenterId, bridged: bool, host: Host): Option<CenterId> {
    if Local(cs, me, host) then (if Serves(cs.tables[me][host]) then Some(me) else None)
    else if !bridged then None
    else
      var there := Remote(cs, me, host);
      if there.Some? && host in cs.tables[there.value] then there else None
  }

  function Sends(es: seq<Effect>): seq<Effect> {
    if es == [] then [] else (if es[0].Send? then [es[0]] else []) + Sends(es[1..])
  }

  /** The second insert of an id is ignored; a completion writes the row of its id. */
  function Written(log: Log, e: Effect): Log {
    match e
    case Insert(c, req) => if req.id in log then log else log[req.id := Row(c, req.host, None)]
    case Complete(id, reply) => if id in log then log[id := log[id].(written := Some(reply))] else log
    case Send(_, _, _) => log
  }

  function Logged(log: Log, es: seq<Effect>): Log
    decreases |es|
  {
    if es == [] then log else Logged(Written(log, es[0]), es[1..])
  }

  /** One row: it names the instance and the host of whoever came first under the
      id, and holds the reply that was completed last. */
  function RowAfter(log: Log, at: CenterId, req: Request, reply: Reply): Log {
    log[req.id := if req.id in log then log[req.id].(written := Some(reply)) else Row(at, req.host, Some(reply))]
  }

  /** Whatever the log holds, the effects leave it alone or write their one row. */
  ghost predicate WritesRow(es: seq<Effect>, at: CenterId, req: Request, reply: Reply) {
    forall log :: Logged(log, es) == RowAfter(log, at, req, reply)
  }

  ghost predicate WritesNothing(es: seq<Effect>) {
    forall log :: Logged(log, es) == log
  }

  lemma {:induction false} LoggedAppend(log: Log, a: seq<Effect>, b: seq<Effect>)
    ensures Logged(log, a + b) == Logged(Logged(log, a), b)
    decreases |a|
  {
    if a == [] {
      assert a + b == b;
    } else {
      assert (a + b)[0] == a[0] && (a + b)[1..] == a[1..] + b;
      LoggedAppend(Written(log, a[0]), a[1..], b);
    }
  }

  lemma {:induction false} SendsAppend(a: seq<Effect>, b: seq<Effect>)
    ensures Sends(a + b) == Sends(a) + Sends(b)
  {
    if a == [] {
      assert a + b == b;
    } else {
      assert (a + b)[0] == a[0] && (a + b)[1..] == a[1..] + b;
      SendsAppend(a[1..], b);
    }
  }

  function Bracketed(at: CenterId, req: Request, inner: seq<Effect>, reply: Reply): seq<Effect> {
    [Insert(at, req)] + inner + [Complete(req.id, reply)]
  }

  /** An insert and a completion around effects of the same request write its row,
      whatever an instance at the other end of a hop writes in between. */
  lemma BracketWrites(at: CenterId, req: Request, inner: seq<Effect>, reply: Reply)
    requires WritesNothing(inner) || exists c, r :: WritesRow(inner, c, req, r)
    ensures WritesRow(Bracketed(at, req, inner, reply), at, req, reply)
    ensures Sends(Bracketed(at, req, inner, reply)) == Sends(inner)
  {
    var head, tail := [Insert(at, req)], [Complete(req.id, reply)];
    forall log ensures Logged(log, Bracketed(at, req, inner, reply)) == RowAfter(log, at, req, reply) {
      LoggedAppend(log, head + inner, tail);
      LoggedAppend(log, head, inner);
      assert Logged(log, head) == Written(log, head[0]);
      var mid := Logged(Written(log, head[0]), inner);
      assert Logged(mid, tail) == Written(mid, tail[0]);
    }
    SendsAppend(head + inner, tail);
    SendsAppend(head, inner);
  }

  lemma OneSend(c: CenterId, r: Record, id: RequestId)
    ensures WritesNothing([Send(c, r, id)]) && Sends([Send(c, r, id)]) == [Send(c, r, id)]
  {
  }

  // --- the code ---

  /** Sends through the router of `at`, with a log row around it. */
  method LoggedSend(at: CenterId, rec: Record, req: Request, logged: bool, node: Node)
    returns (reply: Reply, effects: seq<Effect>)
    ensures reply == node(rec, req.id) && Sends(effects) == [Send(at, rec, req.id)]
    ensures if logged then WritesRow(effects, at, req, reply) else WritesNothing(effects)
  {
    reply := node(rec, req.id);
    effects := [Send(at, rec, req.id)];
    OneSend(at, rec, req.id);
    if logged {
      BracketWrites(at, req, effects, reply);
      effects := Bracketed(at, req, effects, reply);
    }
  }

  /** The receiving end of a hop: it never forwards again. */
  method HandleForward(table: Table, at: CenterId, req: Request, logged: bool, node: Node)
    returns (reply: Reply, effects: seq<Effect>)
    ensures req.host in table ==>
      reply == node(table[req.host], req.id) && Sends(effects) == [Send(at, table[req.host], req.id)]
    ensures req.host !in table ==> reply.SendError? && effects == []
    ensures if logged && req.host in table then WritesRow(effects, at, req, reply) else WritesNothing(effects)
  {
    if req.host !in table {
      return SendError("agent not found"), [];
    }
    reply, effects := LoggedSend(at, table[req.host], req, logged, node);
  }

  datatype Bridge = Bridge(reply: Reply, forwarded: bool)

  method ForwardIfNeeded(cs: Centers, me: CenterId, req: Request, logged: bool, node: Node)
    returns (b: Bridge, effects: seq<Effect>)
    requires !Local(cs, me, req.host)
    ensures var at := SenderOf(cs, me, true, req.host);
            if at.Some? then
              var rec := cs.tables[at.value][req.host];
              && b == Bridge(node(rec, req.id), true) && Sends(effects) == [Send(at.value, rec, req.id)]
              && (if logged then WritesRow(effects, at.value, req, b.reply) else WritesNothing(effects))
            else (b.forwarded ==> b.reply.SendError?) && effects == []
    ensures b.forwarded <==> cs.store.down || Addressed(cs, me, req.host)
  {
    effects := [];
    if cs.store.down {
      return Bridge(SendError("query failed"), true), effects;
    }
    if req.host !in cs.store.home {
      return Bridge(Json(""), false), effects;
    }
    var home := cs.store.home[req.host];
    if home == me {
      return Bridge(Json(""), false), effects;
    }
    if home !in cs.store.address {
      return Bridge(SendError("address not found"), false), effects;
    }
    var there := cs.store.address[home];
    if there !in cs.reachable || there !in cs.tables {
      return Bridge(SendError("unreachable"), true), effects;
    }
    var reply;
    reply, effects := HandleForward(cs.tables[there], there, req, logged, node);
    b := Bridge(reply, true);
  }

  /** A request is sent to a node at most once over all instances, by an instance
      whose registry holds the host, and what the node says is the answer. Where
      nothing is sent the answer says why. The log gets one row for the id, also
      over a hop: it names this instance unless another call had the id before,
      and holds what came back last; nothing is logged for a host that is here and
      cannot be asked. `written` is what the row holds in the end. */
  method InvokeTool(cs: Centers, me: CenterId, bridged: bool, req: Request, logged: bool, node: Node)
    returns (a: Answer, effects: seq<Effect>, written: Reply)
    requires me in cs.tables
    ensures var at := SenderOf(cs, me, bridged, req.host);
            if at.Some? then
              var rec := cs.tables[at.value][req.host];
              Sends(effects) == [Send(at.value, rec, req.id)] && Passes(a, written, node(rec, req.id))
            else !a.Value? && Sends(effects) == []
    ensures Local(cs, me, req.host) ==>
      var rec := cs.tables[me][req.host];
      rec.nodeType.Agent? && rec.status.Online? ==>
        Sends(effects) == [Send(me, rec, req.id)] && Passes(a, written, node(rec, req.id))
    ensures !Local(cs, me, req.host) && bridged && !cs.store.down && Addressed(cs, me, req.host) ==>
      var there := cs.store.address[cs.store.home[req.host]];
      there in cs.reachable && Local(cs, there, req.host) ==>
        var rec := cs.tables[there][req.host];
        Sends(effects) == [Send(there, rec, req.id)] && Passes(a, written, node(rec, req.id))
    ensures a.NodeOffline? <==>
      Local(cs, me, req.host) && cs.tables[me][req.host].nodeType.Agent? && !cs.tables[me][req.host].status.Online?
    ensures a.NodeNotFound? <==>
      if Local(cs, me, req.host) then !cs.tables[me][req.host].nodeType.Agent?
      else !bridged || (!cs.store.down && !Addressed(cs, me, req.host))
    ensures if logged && (if Local(cs, me, req.host) then Serves(cs.tables[me][req.host]) else bridged)
            then WritesRow(effects, me, req, written)
            else WritesNothing(effects)
  {
    effects, written := [], Json("");
    if req.host !in cs.tables[me] {
      if !bridged {
        return NodeNotFound, effects, written;
      }
      var b;
      b, effects := ForwardIfNeeded(cs, me, req, logged, node);
      written := b.reply;
      if logged {
        BracketWrites(me, req, effects, b.reply);
        effects := Bracketed(me, req, effects, b.reply);
      }
      if b.forwarded {
        return Answered(b.reply), effects, written;
      }
      return NodeNotFound, effects, written;
    }
    var rec := cs.tables[me][req.host];
    if !rec.nodeType.Agent? {
      return NodeNotFound, effects, written;
    }
    if !rec.status.Online? {
      return NodeOffline, effects, written;
    }
    written, effects := LoggedSend(me, rec, req, logged, node);
    a := Answered(written);
  }

  /** Two calls under one id, as a built-in action on two nodes makes them, share
      one row: it keeps the first host, and the reply of whichever ends last. */
  lemma SharedIdSharesRow(log: Log, first: seq<Effect>, second: seq<Effect>, at: CenterId, a: Request, b: Request,
      ra: Reply, rb: Reply)
    requires a.id == b.id && a.id !in log && WritesRow(first, at, a, ra) && WritesRow(second, at, b, rb)
    ensures Logged(log, first + second) == log[a.id := Row(at, a.host, Some(rb))]
  {
    LoggedAppend(log, first, second);
  }

  /** A hop and a call on the instance at its other end agree on who is asked
      exactly when the record there is an online agent: the receiving end looks
      neither at the status nor at the kind of node, and sends all the same. */
  lemma HopAgreesIff(cs: Centers, me: CenterId, host: Host)
    requires !Local(cs, me, host) && Remote(cs, me, host).Some? && host in cs.tables[Remote(cs, me, host).value]
    ensures var there := Remote(cs, me, host).value;
            SenderOf(cs, me, true, host) == SenderOf(cs, there, true, host) <==> Serves(cs.tables[there][host])
  {
  }
}
