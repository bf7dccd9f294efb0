/** The proxy: one handler per downstream stream, one reader of the upstream
    stream, a registry, and the map that routes cancellations. */
module Proxy {
  import opened Tunnel
  import opened Seqs
  import R = Registry

  /** Relaying: the handler has deleted the pending entry of a reply and is about
      to send the reply upstream. */
  datatype Handler =
    | Registered(req: Message)
    | Serving(req: Message)
    | Relaying(req: Message, reply: Message)
    | Finished

  /** The reader of the upstream stream. Tracking: the target was found, the entry
      is not stored yet; Forwarding: it is stored, the request is not sent yet;
      Canceling: an entry was claimed for a cancellation. */
  datatype Reader =
    | Idle
    | Tracking(req: Message, route: StreamId)
    | Forwarding(req: Message, route: StreamId)
    | Canceling(requestId: RequestId, target: Host)

  datatype State = State(
    name: Host,
    reg: R.Table,
    handlers: map<StreamId, Handler>,
    pending: map<RequestId, Host>,
    reader: Reader)

  function Initial(name: Host): State {
    State(name, map[], map[], map[], Idle)
  }

  datatype Event =
    | Accept(s: StreamId, first: Message, authOk: bool, now: int)
    | Ack(s: StreamId, ok: bool)
    | Beat(s: StreamId, timestamp: int, now: int)
    | TakeReply(s: StreamId, reply: Message)
    | Relay(s: StreamId)
    | Close(s: StreamId)
    | Request(req: Message)
    | Store
    | Forward(ok: bool)
    | Claim(requestId: RequestId)
    | ForwardCancel
    | Clear(requestId: RequestId)
    | Tick(now: int, timeout: int)

  datatype Output = Up(msg: Message) | Down(s: StreamId, msg: Message)

  /** What the proxy tells its upstream about a node it holds: the node's own
      words, with the proxy's name in front of the path. */
  function Announce(name: Host, h: Host, nodeType: NodeType, path: seq<Host>, info: Info): Message {
    RegisterRequest(h, nodeType, [name] + path, info)
  }

  function AnnounceRecord(name: Host, rec: R.Record): Message {
    Announce(name, rec.hostname, rec.nodeType, rec.path, rec.info)
  }

  /** The answer to a request for a host that the proxy does not hold. */
  function Refusal(id: RequestId, target: Host): Message {
    ErrorResponse(id, "HOST_NOT_FOUND", "proxy: target host " + target + " not found")
  }

  predicate Admitted(st: State, ev: Event) {
    ev.Accept? && ev.s !in st.handlers && ev.first.RegisterRequest? && ev.authOk
  }

  predicate IsServing(st: State, s: StreamId) {
    s in st.handlers && st.handlers[s].Serving? && st.handlers[s].req.RegisterRequest?
  }

  function Apply(st: State, ev: Event): State {
    match ev
    case Accept(s, first, _, now) =>
      if s in st.handlers then st
      else if Admitted(st, ev) then
        st.(reg := st.reg[first.hostname :=
          R.Record(first.hostname, first.info, first.nodeType, first.path, now, now, R.Online, s)],
            handlers := st.handlers[s := Registered(first)])
      else st.(handlers := st.handlers[s := Finished])
    case Ack(s, ok) =>
      if s in st.handlers && st.handlers[s].Registered? then
        if ok then st.(handlers := st.handlers[s := Serving(st.handlers[s].req)])
        else st.(reg := R.WithoutStream(st.reg, s), handlers := st.handlers[s := Finished])
      else st
    case Beat(s, _, now) =>
      if IsServing(st, s) then st.(reg := R.Beaten(st.reg, st.handlers[s].req.hostname, now)) else st
    case TakeReply(s, reply) =>
      if IsServing(st, s) && reply.IsReply() then
        st.(pending := st.pending - {reply.requestId},
          handlers := st.handlers[s := Relaying(st.handlers[s].req, reply)])
      else st
    case Relay(s) =>
      if s in st.handlers && st.handlers[s].Relaying? then
        st.(handlers := st.handlers[s := Serving(st.handlers[s].req)])
      else st
    case Close(s) =>
      if IsServing(st, s) then st.(reg := R.WithoutStream(st.reg, s), handlers := st.handlers[s := Finished]) else st
    case Request(req) =>
      if st.reader.Idle? && req.ToolRequest? && req.target in st.reg then
        st.(reader := Tracking(req, st.reg[req.target].route))
      else st
    case Store =>
      if st.reader.Tracking? && st.reader.req.ToolRequest? then
        st.(pending := st.pending[st.reader.req.requestId := st.reader.req.target],
            reader := Forwarding(st.reader.req, st.reader.route))
      else st
    case Forward(ok) =>
      if st.reader.Forwarding? && st.reader.req.ToolRequest? then
        st.(pending := if ok then st.pending else st.pending - {st.reader.req.requestId}, reader := Idle)
      else st
    case Claim(id) =>
      if st.reader.Idle? && id in st.pending then
        st.(pending := st.pending - {id}, reader := Canceling(id, st.pending[id]))
      else st
    case ForwardCancel => if st.reader.Canceling? then st.(reader := Idle) else st
    case Clear(id) => if st.reader.Idle? then st.(pending := st.pending - {id}) else st
    case Tick(now, timeout) => st.(reg := R.Checked(st.reg, now, timeout))
  }

  function Outputs(st: State, ev: Event): seq<Output> {
    match ev
    case Accept(s, first, _, _) =>
      if s in st.handlers || !first.RegisterRequest? || Admitted(st, ev) then [] else [Down(s, RegisterAck(false))]
    case Ack(s, ok) =>
      if s in st.handlers && st.handlers[s].Registered? && st.handlers[s].req.RegisterRequest? && ok then
        var req := st.handlers[s].req;
        [Down(s, RegisterAck(true)), Up(Announce(st.name, req.hostname, req.nodeType, req.path, req.info))]
      else []
    case Beat(s, timestamp, _) =>
      if IsServing(st, s) then
        [Down(s, HeartbeatAck(timestamp))] +
        if st.handlers[s].req.hostname in st.reg
          then [Up(AnnounceRecord(st.name, st.reg[st.handlers[s].req.hostname]))] else []
      else []
    case Relay(s) => if s in st.handlers && st.handlers[s].Relaying? then [Up(st.handlers[s].reply)] else []
    case Request(req) =>
      if st.reader.Idle? && req.ToolRequest? && req.target !in st.reg then
        [Up(Refusal(req.requestId, req.target))]
      else []
    case Forward(ok) =>
      if st.reader.Forwarding? && st.reader.req.ToolRequest? && ok then [Down(st.reader.route, st.reader.req)] else []
    case ForwardCancel =>
      if st.reader.Canceling? && st.reader.target in st.reg then
        [Down(st.reg[st.reader.target].route, CancelRequest(st.reader.requestId))]
      else []
    case _ => []
  }

  /** The messages for the upstream stream, and those for the nodes. */
  function Ups(outs: seq<Output>): seq<Message> {
    if outs == [] then [] else (match outs[0] case Up(m) => [m] case Down(_, _) => []) + Ups(outs[1..])
  }

  function Downs(outs: seq<Output>): seq<Output> {
    if outs == [] then [] else (if outs[0].Down? then [outs[0]] else []) + Downs(outs[1..])
  }

  lemma SplitOutputs(a: seq<Output>, b: seq<Output>)
    ensures Ups(a + b) == Ups(a) + Ups(b) && Downs(a + b) == Downs(a) + Downs(b)
  {
    SplitUps(a, b);
    SplitDowns(a, b);
  }

  lemma {:induction false} SplitUps(a: seq<Output>, b: seq<Output>)
    ensures Ups(a + b) == Ups(a) + Ups(b)
  {
    if a == [] {
      assert a + b == b;
    } else {
      assert (a + b)[0] == a[0] && (a + b)[1..] == a[1..] + b;
      SplitUps(a[1..], b);
      Assoc(if a[0].Up? then [a[0].msg] else [], Ups(a[1..]), Ups(b));
    }
  }

  lemma {:induction false} SplitDowns(a: seq<Output>, b: seq<Output>)
    ensures Downs(a + b) == Downs(a) + Downs(b)
  {
    if a == [] {
      assert a + b == b;
    } else {
      assert (a + b)[0] == a[0] && (a + b)[1..] == a[1..] + b;
      SplitDowns(a[1..], b);
      Assoc(if a[0].Down? then [a[0]] else [], Downs(a[1..]), Downs(b));
    }
  }

  function Run(st: State, es: seq<Event>): State
    decreases |es|
  {
    if es == [] then st else Run(Apply(st, es[0]), es[1..])
  }

  // --- routes stay live ---

  ghost predicate RoutesLive(st: State) {
    && R.Keyed(st.reg)
    && forall h :: h in st.reg ==> st.reg[h].route in st.handlers && !st.handlers[st.reg[h].route].Finished?
  }

  lemma RoutesLiveStep(st: State, ev: Event)
    requires RoutesLive(st)
    ensures RoutesLive(Apply(st, ev))
  {
  }

  lemma {:induction false} RoutesStayLive(st: State, es: seq<Event>)
    requires RoutesLive(st)
    ensures RoutesLive(Run(st, es))
    decreases |es|
  {
    if es != [] {
      RoutesLiveStep(st, es[0]);
      RoutesStayLive(Apply(st, es[0]), es[1..]);
    }
  }

  // --- conservation of pending entries ---

  /** The ids center has asked this proxy to forward so far. */
  function Asked(seen: set<RequestId>, ev: Event): set<RequestId> {
    if ev.Request? && ev.req.ToolRequest? then seen + {ev.req.requestId} else seen
  }

  /** Center never reuses a request id towards this proxy. */
  predicate DistinctIds(seen: set<RequestId>, es: seq<Event>)
    decreases |es|
  {
    es == [] ||
    (&& (es[0].Request? && es[0].req.ToolRequest? ==> es[0].req.requestId !in seen)
     && DistinctIds(Asked(seen, es[0]), es[1..]))
  }

  /** The life of an id at the proxy, in the only order it can take. */
  datatype Stage = Unseen | Looked | Held | Forwardable | Gone

  function StageOf(st: State, seen: set<RequestId>, id: RequestId): Stage {
    if id !in seen then Unseen
    else if st.reader.Tracking? && st.reader.req.ToolRequest? && st.reader.req.requestId == id then Looked
    else if id !in st.pending then Gone
    else if st.reader.Forwarding? && st.reader.req.ToolRequest? && st.reader.req.requestId == id then Forwardable
    else Held
  }

  function Rank(stage: Stage): nat {
    match stage case Unseen => 0 case Looked => 1 case Forwardable => 2 case Held => 3 case Gone => 4
  }

  /** Only ids that were asked for are tracked or held, and an id is not held
      before it is stored. */
  ghost predicate Tracked(st: State, seen: set<RequestId>) {
    && st.pending.Keys <= seen
    && (st.reader.Tracking? || st.reader.Forwarding? ==> st.reader.req.ToolRequest? && st.reader.req.requestId in seen)
    && (st.reader.Tracking? ==> st.reader.req.requestId !in st.pending)
  }

  /** How an entry leaves the pending map. */
  datatype Exit = ByReply | ByFailedForward | ByCancel | ByClear

  function ExitOf(st: State, ev: Event, id: RequestId): Option<Exit> {
    if id in st.pending && id !in Apply(st, ev).pending then
      match ev
      case TakeReply(_, _) => Some(ByReply)
      case Forward(_) => Some(ByFailedForward)
      case Claim(_) => Some(ByCancel)
      case _ => Some(ByClear)
    else None
  }

  predicate Stores(st: State, ev: Event, id: RequestId) {
    ev.Store? && st.reader.Tracking? && st.reader.req.ToolRequest? && st.reader.req.requestId == id
  }

  function StoreCount(st: State, es: seq<Event>, id: RequestId): nat
    decreases |es|
  {
    if es == [] then 0
    else (if Stores(st, es[0], id) then 1 else 0) + StoreCount(Apply(st, es[0]), es[1..], id)
  }

  /** The ways the entry of `id` left, in order. */
  function Exits(st: State, es: seq<Event>, id: RequestId): seq<Exit>
    decreases |es|
  {
    if es == [] then []
    else (var e := ExitOf(st, es[0], id); if e.Some? then [e.value] else []) + Exits(Apply(st, es[0]), es[1..], id)
  }

  lemma StageStep(st: State, seen: set<RequestId>, ev: Event, id: RequestId)
    requires Tracked(st, seen)
    requires ev.Request? && ev.req.ToolRequest? ==> ev.req.requestId !in seen
    ensures Tracked(Apply(st, ev), Asked(seen, ev))
    ensures Rank(StageOf(st, seen, id)) <= Rank(StageOf(Apply(st, ev), Asked(seen, ev), id))
    ensures Stores(st, ev, id) ==> StageOf(st, seen, id).Looked? && id in Apply(st, ev).pending
    ensures id !in st.pending && id in Apply(st, ev).pending ==> Stores(st, ev, id)
    ensures ExitOf(st, ev, id).Some? ==> StageOf(Apply(st, ev), Asked(seen, ev), id).Gone?
  {
  }

  /** With distinct ids every id is stored at most once, and it is in the map, or
      has left it by exactly one of a reply, a failed forward, a cancellation and
      a clear, exactly when it was stored. */
  lemma {:induction false} EntriesAreConserved(st: State, seen: set<RequestId>, es: seq<Event>, id: RequestId)
    requires Tracked(st, seen) && DistinctIds(seen, es)
    ensures Rank(StageOf(st, seen, id)) > 1 ==> StoreCount(st, es, id) == 0
    ensures StoreCount(st, es, id) <= 1
    ensures (if id in st.pending then 1 else 0) + StoreCount(st, es, id)
            == |Exits(st, es, id)| + (if id in Run(st, es).pending then 1 else 0)
    decreases |es|
  {
    if es != [] {
      StageStep(st, seen, es[0], id);
      EntriesAreConserved(Apply(st, es[0]), Asked(seen, es[0]), es[1..], id);
    }
  }

  lemma EachEntryLeavesOnce(name: Host, es: seq<Event>, id: RequestId)
    requires DistinctIds({}, es)
    ensures StoreCount(Initial(name), es, id) <= 1
    ensures |Exits(Initial(name), es, id)| + (if id in Run(Initial(name), es).pending then 1 else 0)
            == StoreCount(Initial(name), es, id)
  {
    EntriesAreConserved(Initial(name), {}, es, id);
  }

  /** A request of `id` goes down to a node in this step. */
  predicate Sends(st: State, ev: Event, id: RequestId) {
    ev == Forward(true) && st.reader.Forwarding? && st.reader.req.ToolRequest? && st.reader.req.requestId == id
  }

  predicate Sent(st: State, es: seq<Event>, id: RequestId)
    decreases |es|
  {
    es != [] && (Sends(st, es[0], id) || Sent(Apply(st, es[0]), es[1..], id))
  }

  predicate Claims(st: State, ev: Event, id: RequestId) {
    ev == Claim(id) && st.reader.Idle? && id in st.pending
  }

  predicate NeverClaims(st: State, es: seq<Event>, id: RequestId)
    decreases |es|
  {
    es == [] || (!Claims(st, es[0], id) && NeverClaims(Apply(st, es[0]), es[1..], id))
  }

  lemma {:induction false} GoneIsFinal(st: State, seen: set<RequestId>, es: seq<Event>, id: RequestId)
    requires Tracked(st, seen) && DistinctIds(seen, es) && StageOf(st, seen, id).Gone?
    ensures NeverClaims(st, es, id) && id !in Run(st, es).pending
    decreases |es|
  {
    if es != [] {
      StageStep(st, seen, es[0], id);
      GoneIsFinal(Apply(st, es[0]), Asked(seen, es[0]), es[1..], id);
    }
  }

  function SeenAfter(seen: set<RequestId>, es: seq<Event>): set<RequestId>
    decreases |es|
  {
    if es == [] then seen else SeenAfter(Asked(seen, es[0]), es[1..])
  }

  lemma {:induction false} AfterSent(st: State, seen: set<RequestId>, es: seq<Event>, more: seq<Event>, id: RequestId)
    requires Tracked(st, seen) && DistinctIds(seen, es + more)
    ensures Tracked(Run(st, es), SeenAfter(seen, es)) && DistinctIds(SeenAfter(seen, es), more)
    ensures Sent(st, es, id) || Rank(StageOf(st, seen, id)) >= 3 ==>
      Rank(StageOf(Run(st, es), SeenAfter(seen, es), id)) >= 3
    decreases |es|
  {
    if es == [] {
      assert es + more == more;
    } else {
      assert (es + more)[0] == es[0] && (es + more)[1..] == es[1..] + more;
      StageStep(st, seen, es[0], id);
      AfterSent(Apply(st, es[0]), Asked(seen, es[0]), es[1..], more, id);
    }
  }

  /** No cancellation is ever claimed for an id whose reply has been taken up
      after its request went down: the entry was stored before the request was
      forwarded, so the reply finds it and the entry never comes back. */
  lemma NoCancelAfterReply(name: Host, es: seq<Event>, s: StreamId, reply: Message, more: seq<Event>)
    requires reply.IsReply()
    requires DistinctIds({}, es + ([TakeReply(s, reply)] + more))
    requires Sent(Initial(name), es, reply.requestId) && IsServing(Run(Initial(name), es), s)
    ensures var after := Apply(Run(Initial(name), es), TakeReply(s, reply));
            NeverClaims(after, more, reply.requestId) && reply.requestId !in Run(after, more).pending
  {
    var st, id := Run(Initial(name), es), reply.requestId;
    AfterSent(Initial(name), {}, es, [TakeReply(s, reply)] + more, id);
    var seen := SeenAfter({}, es);
    StageStep(st, seen, TakeReply(s, reply), id);
    assert ([TakeReply(s, reply)] + more)[1..] == more;
    GoneIsFinal(Apply(st, TakeReply(s, reply)), seen, more, id);
  }

  /** At most one cancellation is claimed per id. */
  lemma OneClaimPerId(name: Host, es: seq<Event>, more: seq<Event>, id: RequestId)
    requires DistinctIds({}, es + ([Claim(id)] + more))
    requires Claims(Run(Initial(name), es), Claim(id), id)
    ensures NeverClaims(Apply(Run(Initial(name), es), Claim(id)), more, id)
  {
    var st := Run(Initial(name), es);
    AfterSent(Initial(name), {}, es, [Claim(id)] + more, id);
    var seen := SeenAfter({}, es);
    StageStep(st, seen, Claim(id), id);
    assert ([Claim(id)] + more)[1..] == more;
    GoneIsFinal(Apply(st, Claim(id)), seen, more, id);
  }

  // --- clearing ---

  function Clears(ids: seq<RequestId>): seq<Event> {
    seq(|ids|, i requires 0 <= i < |ids| => Clear(ids[i]))
  }

  /** Clearing the ids that are pending, one by one and in any order, forgets them
      all and does nothing else. */
  lemma {:induction false} ClearsForget(st: State, ids: seq<RequestId>)
    requires st.reader.Idle? && forall id :: id in st.pending ==> id in ids
    ensures Run(st, Clears(ids)) == st.(pending := map[])
    decreases |ids|
  {
    if ids != [] {
      assert Clears(ids)[0] == Clear(ids[0]) && Clears(ids)[1..] == Clears(ids[1..]);
      ClearsForget(Apply(st, Clear(ids[0])), ids[1..]);
    }
  }

  // --- when a node of the proxy is online ---

  /** When the proxy hears of `h` in the step: its heartbeat or its registration. */
  function HeardAt(st: State, ev: Event, h: Host): Option<int> {
    match ev
    case Beat(s, _, now) =>
      if IsServing(st, s) && st.handlers[s].req.hostname == h && h in st.reg then Some(now) else None
    case Accept(_, _, _, now) => if Renews(st, ev, h) then Some(now) else None
    case _ => None
  }

  predicate TooLate(ev: Event, last: Option<int>) {
    ev.Tick? && last.Some? && ev.now - last.value > ev.timeout
  }

  /** Since the proxy last heard of `h`, which was at `last` before the run if at
      all, a check has come too late. */
  predicate Overdue(st: State, es: seq<Event>, h: Host, last: Option<int>, late: bool)
    decreases |es|
  {
    if es == [] then late
    else
      var heard, next := HeardAt(st, es[0], h), Apply(st, es[0]);
      if heard.Some? then Overdue(next, es[1..], h, heard, false)
      else Overdue(next, es[1..], h, last, late || TooLate(es[0], last))
  }

  /** A node in the registry is online, and so announced when the proxy registers
      all its nodes again, exactly while it is not overdue. */
  lemma {:induction false} OnlineIffNotOverdue(st: State, es: seq<Event>, h: Host, last: Option<int>, late: bool)
    requires h in st.reg ==> last == Some(st.reg[h].lastHeartbeat) && (st.reg[h].status.Online? <==> !late)
    ensures h in Run(st, es).reg ==> (Run(st, es).reg[h].status.Online? <==> !Overdue(st, es, h, last, late))
    decreases |es|
  {
    if es != [] {
      var heard := HeardAt(st, es[0], h);
      if heard.Some? {
        OnlineIffNotOverdue(Apply(st, es[0]), es[1..], h, heard, false);
      } else {
        OnlineIffNotOverdue(Apply(st, es[0]), es[1..], h, last, late || TooLate(es[0], last));
      }
    }
  }

  // --- what the proxy says of one host ---

  /** Every announcement of `h` that is now possible is `m`. */
  ghost predicate Speaks(st: State, h: Host, m: Message) {
    && (h in st.reg ==> AnnounceRecord(st.name, st.reg[h]) == m)
    && (forall s :: s in st.handlers && st.handlers[s].Registered? && st.handlers[s].req.RegisterRequest? ==>
          var req := st.handlers[s].req;
          req.hostname == h ==> Announce(st.name, req.hostname, req.nodeType, req.path, req.info) == m)
  }

  /** What a handler is about to relay is a reply. */
  predicate RelaysReplies(st: State) {
    forall s :: s in st.handlers && st.handlers[s].Relaying? ==> st.handlers[s].reply.IsReply()
  }

  lemma RelaysRepliesStep(st: State, ev: Event)
    requires RelaysReplies(st)
    ensures RelaysReplies(Apply(st, ev))
  {
  }

  predicate Renews(st: State, ev: Event, h: Host) {
    Admitted(st, ev) && ev.first.hostname == h
  }

  lemma SpeaksStep(st: State, ev: Event, h: Host, m: Message)
    requires Speaks(st, h, m) && !Renews(st, ev, h)
    ensures Speaks(Apply(st, ev), h, m)
  {
  }

  lemma SaysOnly(st: State, ev: Event, h: Host, m: Message)
    requires RoutesLive(st) && RelaysReplies(st) && Speaks(st, h, m)
    ensures forall x :: x in Ups(Outputs(st, ev)) && x.RegisterRequest? && x.hostname == h ==> x == m
  {
    if ev.Beat? && IsServing(st, ev.s) {
      HeartbeatAnnounces(st, ev.s, ev.timestamp, ev.now);
    } else if ev.Ack? {
      AckSays(st, ev.s, ev.ok);
    }
  }

  lemma AckSays(st: State, s: StreamId, ok: bool)
    ensures Ups(Outputs(st, Ack(s, ok))) ==
      if ok && s in st.handlers && st.handlers[s].Registered? && st.handlers[s].req.RegisterRequest? then
        var req := st.handlers[s].req;
        [Announce(st.name, req.hostname, req.nodeType, req.path, req.info)]
      else []
  {
    if Outputs(st, Ack(s, ok)) != [] {
      SplitOutputs(Outputs(st, Ack(s, ok))[..1], Outputs(st, Ack(s, ok))[1..]);
    }
  }

  /** Where center learns a host from: one heartbeat of a serving node announces
      the record under its name, if there is one, and says nothing else upstream. */
  lemma HeartbeatAnnounces(st: State, s: StreamId, timestamp: int, now: int)
    requires IsServing(st, s)
    ensures var h := st.handlers[s].req.hostname;
            Ups(Outputs(st, Beat(s, timestamp, now))) == if h in st.reg
              then [AnnounceRecord(st.name, st.reg[h])] else []
  {
    var h := st.handlers[s].req.hostname;
    SplitOutputs([Down(s, HeartbeatAck(timestamp))], if h in st.reg
      then [Up(AnnounceRecord(st.name, st.reg[h]))] else []);
  }
}
