/** Center: one handler goroutine per stream, the shared registry and the
    router, under every interleaving of their lock sections. */
module Center {
  import opened Tunnel
  import R = Registry
  import M = RouterMachine

  /** Where the handler of a stream stands. Registered: its record is published,
      the ack is not sent yet. Adding: it looked up a forwarded host and found
      nothing. Persisting: it registered that host and waits for the store. */
  datatype Handler =
    | Registered(host: Host)
    | Serving(host: Host)
    | Adding(host: Host, req: Message)
    | Persisting(host: Host, added: Host)
    | Finished

  datatype State = State(reg: R.Table, handlers: map<StreamId, Handler>, router: M.State)

  const EMPTY := State(map[], map[], M.EMPTY)

  datatype Event =
    | Accept(s: StreamId, first: Message, authOk: bool, persistOk: bool, now: int)
    | Ack(s: StreamId, ok: bool)
    | Receive(s: StreamId, msg: Message, now: int)
    | Add(s: StreamId, now: int)
    | Persisted(s: StreamId, ok: bool)
    | Close(s: StreamId)
    | Tick(now: int, timeout: int)
    | Lookup(c: M.CallId, id: RequestId, host: Host, tool: string, args: string)
    | Step(step: M.Event)

  /** A message center puts on a stream. */
  datatype Output = Down(s: StreamId, msg: Message)

  function RecordFor(req: Message, s: StreamId, now: int): R.Record
    requires req.RegisterRequest?
  {
    R.Record(req.hostname, req.info, req.nodeType, req.path, now, now, R.Online, s)
  }

  predicate Is(st: State, s: StreamId) {
    s in st.handlers && !st.handlers[s].Finished?
  }

  predicate IsServing(st: State, s: StreamId) {
    s in st.handlers && st.handlers[s].Serving?
  }

  predicate IsAdding(st: State, s: StreamId) {
    s in st.handlers && st.handlers[s].Adding? && st.handlers[s].req.RegisterRequest?
  }

  /** A first message that leads to a registration. */
  predicate Admitted(st: State, ev: Event) {
    ev.Accept? && ev.s !in st.handlers && ev.first.RegisterRequest? && ev.authOk && ev.persistOk
  }

  function Received(st: State, s: StreamId, msg: Message, now: int): State
    requires IsServing(st, s)
  {
    match msg
    case Heartbeat(_) => st.(reg := R.Beaten(st.reg, st.handlers[s].host, now))
    case ToolResponse(_, _) => st.(router := M.Apply(st.router, M.Deliver(msg)))
    case ErrorResponse(_, _, _) => st.(router := M.Apply(st.router, M.Deliver(msg)))
    case RegisterRequest(h, _, _, _) =>
      if h in st.reg then st.(reg := R.Beaten(st.reg, h, now))
      else st.(handlers := st.handlers[s := Adding(st.handlers[s].host, msg)])
    case _ => st
  }

  /** The steps of a call after its lookup; deliveries and lookups have events of their own. */
  predicate CallStep(ev: M.Event) {
    !ev.Start? && !ev.Deliver?
  }

  function Apply(st: State, ev: Event): State {
    match ev
    case Accept(s, first, _, _, now) =>
      if s in st.handlers then st
      else if Admitted(st, ev) then
        st.(reg := st.reg[first.hostname := RecordFor(first, s, now)],
          handlers := st.handlers[s := Registered(first.hostname)])
      else st.(handlers := st.handlers[s := Finished])
    case Ack(s, ok) =>
      if s in st.handlers && st.handlers[s].Registered? then
        if ok then st.(handlers := st.handlers[s := Serving(st.handlers[s].host)])
        else st.(reg := R.WithoutStream(st.reg, s), handlers := st.handlers[s := Finished])
      else st
    case Receive(s, msg, now) => if IsServing(st, s) then Received(st, s, msg, now) else st
    case Add(s, now) =>
      if IsAdding(st, s) then
        var req := st.handlers[s].req;
        st.(reg := st.reg[req.hostname := RecordFor(req, s, now)],
            handlers := st.handlers[s := Persisting(st.handlers[s].host, req.hostname)])
      else st
    case Persisted(s, ok) =>
      if s in st.handlers && st.handlers[s].Persisting? then
        st.(reg := if ok then st.reg else st.reg - {st.handlers[s].added},
            handlers := st.handlers[s := Serving(st.handlers[s].host)])
      else st
    case Close(s) =>
      if IsServing(st, s) then st.(reg := R.WithoutStream(st.reg, s), handlers := st.handlers[s := Finished]) else st
    case Tick(now, timeout) => st.(reg := R.Checked(st.reg, now, timeout))
    case Lookup(c, id, host, tool, args) =>
      if host in st.reg then st.(router := M.Apply(st.router, M.Start(c, id, host, tool, args, st.reg[host].route)))
        else st
    case Step(step) => if CallStep(step) then st.(router := M.Apply(st.router, step)) else st
  }

  /** What center sends while it takes the step. */
  function Outputs(st: State, ev: Event): seq<Output> {
    match ev
    case Accept(s, first, _, _, _) =>
      if s in st.handlers || !first.RegisterRequest? || Admitted(st, ev) then [] else [Down(s, RegisterAck(false))]
    case Ack(s, ok) =>
      if s in st.handlers && st.handlers[s].Registered? && ok then [Down(s, RegisterAck(true))] else []
    case Receive(s, msg, _) =>
      if IsServing(st, s) && msg.Heartbeat? then [Down(s, HeartbeatAck(msg.timestamp))] else []
    case Step(Transmit(c, ok)) =>
      if ok && M.In(st.router, c, M.Opened) then
        var call := st.router.calls[c];
        [Down(call.route, ToolRequest(call.id, call.tool, call.args, call.host))]
      else []
    case Step(Expire(c, _)) =>
      if M.In(st.router, c, M.Waiting)
        then [Down(st.router.calls[c].route, CancelRequest(st.router.calls[c].id))] else []
    case _ => []
  }

  function Run(st: State, es: seq<Event>): State
    decreases |es|
  {
    if es == [] then st else Run(Apply(st, es[0]), es[1..])
  }

  // --- routes stay live ---

  /** Every record sits under its hostname and routes to a handler that has not
      finished its cleanup. */
  ghost predicate RoutesLive(st: State) {
    R.Keyed(st.reg) && forall h :: h in st.reg ==> Is(st, st.reg[h].route)
  }

  lemma RoutesLiveStep(st: State, ev: Event)
    requires RoutesLive(st)
    ensures RoutesLive(Apply(st, ev))
  {
  }

  lemma {:induction false} RoutesStayLive(st: State, es: seq<Event>)
    requires RoutesLive(st)
    ensures RoutesLive(Run(st, es))
    decreases |es|
  {
    if es != [] {
      RoutesLiveStep(st, es[0]);
      RoutesStayLive(Apply(st, es[0]), es[1..]);
    }
  }

  lemma {:induction false} FinishedIsFinal(st: State, es: seq<Event>, s: StreamId)
    requires s in st.handlers && st.handlers[s].Finished?
    ensures s in Run(st, es).handlers && Run(st, es).handlers[s].Finished?
    decreases |es|
  {
    if es != [] {
      FinishedIsFinal(Apply(st, es[0]), es[1..], s);
    }
  }

  /** Once a handler has cleaned up, no record ever routes to its stream again,
      in spite of lookups and registrations being separate lock sections. */
  lemma DeadRoutesNeverReturn(st: State, es: seq<Event>, s: StreamId, h: Host)
    requires RoutesLive(st) && s in st.handlers && st.handlers[s].Finished?
    ensures h in Run(st, es).reg ==> Run(st, es).reg[h].route != s
  {
    RoutesStayLive(st, es);
    FinishedIsFinal(st, es, s);
  }

  /** The cleanup of a stream takes the hosts routed over it and no others: a
      host that has registered again on a newer stream keeps its record. */
  lemma CleanupIsExact(st: State, s: StreamId, ev: Event)
    requires RoutesLive(st)
    requires (ev == Close(s) && IsServing(st, s))
      || (ev == Ack(s, false) && s in st.handlers && st.handlers[s].Registered?)
    ensures Apply(st, ev).handlers == st.handlers[s := Finished]
    ensures forall h :: h in Apply(st, ev).reg <==> h in st.reg && st.reg[h].route != s
    ensures forall h :: h in Apply(st, ev).reg ==> Apply(st, ev).reg[h] == st.reg[h]
  {
  }

  // --- a failed persist removes by name ---

  /** A step that publishes a record for `h`. */
  predicate Registers(st: State, ev: Event, h: Host) {
    || (Admitted(st, ev) && ev.first.hostname == h)
    || (ev.Add? && IsAdding(st, ev.s) && st.handlers[ev.s].req.hostname == h)
  }

  predicate NobodyRegisters(st: State, es: seq<Event>, h: Host)
    decreases |es|
  {
    es == [] || (!Registers(st, es[0], h) && NobodyRegisters(Apply(st, es[0]), es[1..], h))
  }

  lemma {:induction false} RouteKept(st: State, es: seq<Event>, h: Host)
    requires NobodyRegisters(st, es, h)
    ensures h in Run(st, es).reg ==> h in st.reg && Run(st, es).reg[h].route == st.reg[h].route
    decreases |es|
  {
    if es != [] {
      RouteKept(Apply(st, es[0]), es[1..], h);
    }
  }

  /** A failed persist takes away the record it stands for, or nothing, exactly
      when the record under that name is still routed over the handler's own
      stream; that is so whenever nobody registered the name in between. */
  lemma FailedPersistIsLocalIff(st: State, s: StreamId)
    requires s in st.handlers && st.handlers[s].Persisting?
    ensures var h := st.handlers[s].added;
            var next := Apply(st, Persisted(s, false));
            (forall g :: g in st.reg && st.reg[g].route != s ==> g in next.reg && next.reg[g] == st.reg[g])
            <==> (h !in st.reg || st.reg[h].route == s)
  {
  }

  lemma FailedPersistAlone(st: State, s: StreamId, now: int, es: seq<Event>)
    requires IsAdding(st, s)
    requires NobodyRegisters(Apply(st, Add(s, now)), es, st.handlers[s].req.hostname)
    ensures var h := st.handlers[s].req.hostname;
            var later := Run(Apply(st, Add(s, now)), es);
            h !in later.reg || later.reg[h].route == s
  {
    RouteKept(Apply(st, Add(s, now)), es, st.handlers[s].req.hostname);
  }

  /** Whose registration of `h` is the last one that has not been taken back:
      registering makes a handler the holder; the end of its stream, or any failed
      store of that name, ends the holding. */
  function HolderAfter(st: State, holder: Option<StreamId>, ev: Event, h: Host): Option<StreamId> {
    match ev
    case Accept(s, _, _, _, _) => if Registers(st, ev, h) then Some(s) else holder
    case Add(s, _) => if Registers(st, ev, h) then Some(s) else holder
    case Persisted(s, ok) =>
      if !ok && s in st.handlers && st.handlers[s].Persisting? && st.handlers[s].added == h then None else holder
    case Close(s) => if IsServing(st, s) && holder == Some(s) then None else holder
    case Ack(s, ok) =>
      if !ok && s in st.handlers && st.handlers[s].Registered? && holder == Some(s) then None else holder
    case _ => holder
  }

  function Holder(st: State, holder: Option<StreamId>, es: seq<Event>, h: Host): Option<StreamId>
    decreases |es|
  {
    if es == [] then holder else Holder(Apply(st, es[0]), HolderAfter(st, holder, es[0], h), es[1..], h)
  }

  function RouteOf(st: State, h: Host): Option<StreamId> {
    if h in st.reg then Some(st.reg[h].route) else None
  }

  lemma {:induction false} HolderIsRoute(st: State, es: seq<Event>, h: Host)
    ensures Holder(st, RouteOf(st, h), es, h) == RouteOf(Run(st, es), h)
    decreases |es|
  {
    if es != [] {
      assert HolderAfter(st, RouteOf(st, h), es[0], h) == RouteOf(Apply(st, es[0]), h);
      HolderIsRoute(Apply(st, es[0]), es[1..], h);
    }
  }

  /** Between the registration of a forwarded host and the failure of its store
      anything may happen. The failure then drops the record of another handler
      exactly when that other one was the last to register the name and has not
      lost it since. */
  lemma FailedPersistDropsIff(st: State, s: StreamId, now: int, es: seq<Event>)
    requires IsAdding(st, s)
    requires var h, later := st.handlers[s].req.hostname, Run(Apply(st, Add(s, now)), es);
             s in later.handlers && later.handlers[s].Persisting? && later.handlers[s].added == h
    ensures var h, added := st.handlers[s].req.hostname, Apply(st, Add(s, now));
            var later, holder := Run(added, es), Holder(added, Some(s), es, h);
            (exists g :: g in later.reg && later.reg[g].route != s && g !in Apply(later, Persisted(s, false)).reg)
            <==> holder.Some? && holder.value != s
  {
    var h, added := st.handlers[s].req.hostname, Apply(st, Add(s, now));
    var later := Run(added, es);
    HolderIsRoute(added, es, h);
    FailedPersistIsLocalIff(later, s);
    if RouteOf(later, h).Some? && RouteOf(later, h).value != s {
      assert h in later.reg && later.reg[h].route != s && h !in Apply(later, Persisted(s, false)).reg;
    }
  }

  /** For instance: a node that registers directly while a proxy's
      registration of the same name waits for the store loses its record when
      the store fails, although its own stream is live. */
  lemma FailedPersistDropsNewer(st: State, s: StreamId, t: StreamId, req: Message, now: int)
    requires IsAdding(st, s) && t != s && t !in st.handlers
    requires req.RegisterRequest? && req.hostname == st.handlers[s].req.hostname
    ensures var es := [Add(s, now), Accept(t, req, true, true, now), Ack(t, true)] + [Persisted(s, false)];
            var mid := Run(st, es[..3]);
            var end := Run(st, es);
            && req.hostname in mid.reg && mid.reg[req.hostname].route == t
            && IsServing(end, t)
            && req.hostname !in end.reg
  {
    var s1 := Apply(st, Add(s, now));
    var s2 := Apply(s1, Accept(t, req, true, true, now));
    var s3 := Apply(s2, Ack(t, true));
    var es := [Add(s, now), Accept(t, req, true, true, now), Ack(t, true)] + [Persisted(s, false)];
    assert es[..3] == [Add(s, now)] + ([Accept(t, req, true, true, now)] + ([Ack(t, true)] + []));
    assert es == [Add(s, now)] + ([Accept(t, req, true, true, now)] + ([Ack(t, true)] + ([Persisted(s, false)] + [])));
    RunCons(st, Add(s, now), [Accept(t, req, true, true, now)] + ([Ack(t, true)] + []));
    RunCons(st, Add(s, now), [Accept(t, req, true, true, now)] + ([Ack(t, true)] + ([Persisted(s, false)] + [])));
    RunCons(s1, Accept(t, req, true, true, now), [Ack(t, true)] + []);
    RunCons(s1, Accept(t, req, true, true, now), [Ack(t, true)] + ([Persisted(s, false)] + []));
    RunCons(s2, Ack(t, true), []);
    RunCons(s2, Ack(t, true), [Persisted(s, false)] + []);
    RunCons(s3, Persisted(s, false), []);
  }

  lemma RunCons(st: State, ev: Event, rest: seq<Event>)
    ensures Run(st, [ev] + rest) == Run(Apply(st, ev), rest)
  {
    assert ([ev] + rest)[1..] == rest;
  }

  // --- recovery through forwarded registrations ---

  /** The store of `h` fails, or a stream that `h` is routed over is cleaned up. */
  predicate TakesAway(st: State, ev: Event, h: Host) {
    match ev
    case Persisted(s, ok) => !ok && s in st.handlers && st.handlers[s].Persisting? && st.handlers[s].added == h
    case Close(s) => IsServing(st, s) && h in st.reg && st.reg[h].route == s
    case Ack(s, ok) => !ok && s in st.handlers && st.handlers[s].Registered? && h in st.reg && st.reg[h].route == s
    case _ => false
  }

  predicate Spares(st: State, es: seq<Event>, h: Host)
    decreases |es|
  {
    es == [] || (!TakesAway(st, es[0], h) && Spares(Apply(st, es[0]), es[1..], h))
  }

  /** These are the only ways in which a known host is lost. */
  lemma LostIffTakenAway(st: State, ev: Event, h: Host)
    requires h in st.reg
    ensures h !in Apply(st, ev).reg <==> TakesAway(st, ev, h)
  {
  }

  /** Some step of the run is center reading `req` off the live stream `s`. */
  predicate Hears(st: State, es: seq<Event>, s: StreamId, req: Message)
    decreases |es|
  {
    es != [] &&
    ((es[0].Receive? && es[0].s == s && es[0].msg == req && IsServing(st, s))
      || Hears(Apply(st, es[0]), es[1..], s, req))
  }

  predicate Adds(st: State, s: StreamId, h: Host) {
    IsAdding(st, s) && st.handlers[s].req.hostname == h
  }

  lemma {:induction false} OnceHeardStays(st: State, es: seq<Event>, s: StreamId, h: Host)
    requires h in st.reg || Adds(st, s, h)
    requires Spares(st, es, h)
    ensures h in Run(st, es).reg || Adds(Run(st, es), s, h)
    decreases |es|
  {
    if es != [] {
      if h in st.reg { LostIffTakenAway(st, es[0], h); }
      OnceHeardStays(Apply(st, es[0]), es[1..], s, h);
    }
  }

  /** Whatever else happens, a host that center hears of on the new stream is in
      the registry once the handler is back at reading. */
  lemma {:induction false} HeardIsKnown(st: State, es: seq<Event>, s: StreamId, req: Message)
    requires req.RegisterRequest?
    requires Hears(st, es, s, req) && Spares(st, es, req.hostname)
    requires IsServing(Run(st, es), s)
    ensures req.hostname in Run(st, es).reg
    decreases |es|
  {
    var next := Apply(st, es[0]);
    if es[0].Receive? && es[0].s == s && es[0].msg == req && IsServing(st, s) {
      OnceHeardStays(next, es[1..], s, req.hostname);
    } else {
      HeardIsKnown(next, es[1..], s, req);
    }
  }

  /** Whoever registers `h` in the run is the handler of `s` on the word of its node. */
  predicate OnlyOver(st: State, es: seq<Event>, s: StreamId, h: Host)
    decreases |es|
  {
    es == [] ||
    ((Registers(st, es[0], h) ==> es[0].Add? && es[0].s == s) && OnlyOver(Apply(st, es[0]), es[1..], s, h))
  }

  /** What center reads of `req`'s host on `s` is `req` itself. */
  predicate ToldOnly(ev: Event, s: StreamId, req: Message)
    requires req.RegisterRequest?
  {
    ev.Receive? && ev.s == s && ev.msg.RegisterRequest? && ev.msg.hostname == req.hostname ==> ev.msg == req
  }

  predicate AlwaysTold(es: seq<Event>, s: StreamId, req: Message)
    requires req.RegisterRequest?
  {
    forall k :: 0 <= k < |es| ==> ToldOnly(es[k], s, req)
  }

  lemma {:induction false} HeardIsTold(st: State, es: seq<Event>, s: StreamId, heard: Message, req: Message)
    requires heard.RegisterRequest? && req.RegisterRequest? && heard.hostname == req.hostname
    requires Hears(st, es, s, heard) && AlwaysTold(es, s, req)
    ensures heard == req
    decreases |es|
  {
    assert ToldOnly(es[0], s, req);
    if !(es[0].Receive? && es[0].s == s && es[0].msg == heard && IsServing(st, s)) {
      HeardIsTold(Apply(st, es[0]), es[1..], s, heard, req);
    }
  }

  /** `rec` is the record center makes from `req` on stream `s`, up to times and status. */
  predicate Via(rec: R.Record, s: StreamId, req: Message)
    requires req.RegisterRequest?
  {
    && rec.route == s && rec.path == req.path && rec.info == req.info
    && rec.nodeType == req.nodeType && rec.hostname == req.hostname
  }

  ghost predicate ViaOnly(st: State, s: StreamId, req: Message)
    requires req.RegisterRequest?
  {
    && (req.hostname in st.reg ==> Via(st.reg[req.hostname], s, req))
    && (Adds(st, s, req.hostname) ==> st.handlers[s].req == req)
  }

  lemma {:induction false} NewHostsComeVia(st: State, es: seq<Event>, s: StreamId, req: Message)
    requires req.RegisterRequest? && ViaOnly(st, s, req)
    requires OnlyOver(st, es, s, req.hostname) && AlwaysTold(es, s, req)
    ensures ViaOnly(Run(st, es), s, req)
    decreases |es|
  {
    if es != [] {
      assert ToldOnly(es[0], s, req);
      NewHostsComeVia(Apply(st, es[0]), es[1..], s, req);
    }
  }

  predicate SameButTimes(a: R.Record, b: R.Record) {
    b == a.(lastHeartbeat := b.lastHeartbeat, status := b.status)
  }

  lemma {:induction false} KnownHostsStay(st: State, es: seq<Event>, h: Host)
    requires h in st.reg && NobodyRegisters(st, es, h) && Spares(st, es, h)
    ensures h in Run(st, es).reg && SameButTimes(st.reg[h], Run(st, es).reg[h])
    decreases |es|
  {
    if es != [] {
      LostIffTakenAway(st, es[0], h);
      KnownHostsStay(Apply(st, es[0]), es[1..], h);
    }
  }

  /** A registration publishes what the node says, as of now and over the stream it
      came in on. */
  lemma RegistrationIsRecorded(st: State, ev: Event, h: Host)
    requires Registers(st, ev, h)
    ensures var req := if ev.Accept? then ev.first else st.handlers[ev.s].req;
            var next := Apply(st, ev);
            && h in next.reg && Via(next.reg[h], ev.s, req)
            && next.reg[h].registeredAt == ev.now == next.reg[h].lastHeartbeat && next.reg[h].status == R.Online
            && forall g :: g != h ==> (g in next.reg <==> g in st.reg) && (g in st.reg ==> next.reg[g] == st.reg[g])
  {
  }

  // --- when a known host is online ---

  /** When center hears of `h` in the step: its own heartbeat, a proxy's word of a
      known host, or a registration. */
  function HeardAt(st: State, ev: Event, h: Host): Option<int> {
    match ev
    case Receive(s, Heartbeat(_), now) =>
      if IsServing(st, s) && st.handlers[s].host == h && h in st.reg then Some(now) else None
    case Receive(s, RegisterRequest(g, _, _, _), now) =>
      if IsServing(st, s) && g == h && h in st.reg then Some(now) else None
    case Accept(_, _, _, _, now) => if Registers(st, ev, h) then Some(now) else None
    case Add(_, now) => if Registers(st, ev, h) then Some(now) else None
    case _ => None
  }

  /** The step is a check that comes too late after the last word of `h`. */
  predicate TooLate(ev: Event, last: Option<int>) {
    ev.Tick? && last.Some? && ev.now - last.value > ev.timeout
  }

  /** Since center last heard of `h`, which was at `last` before the run if at all,
      a check has come too late. */
  predicate Overdue(st: State, es: seq<Event>, h: Host, last: Option<int>, late: bool)
    decreases |es|
  {
    if es == [] then late
    else
      var heard, next := HeardAt(st, es[0], h), Apply(st, es[0]);
      if heard.Some? then Overdue(next, es[1..], h, heard, false)
      else Overdue(next, es[1..], h, last, late || TooLate(es[0], last))
  }

  /** A known host is online exactly while it is not overdue. */
  lemma {:induction false} OnlineIffNotOverdue(st: State, es: seq<Event>, h: Host, last: Option<int>, late: bool)
    requires h in st.reg ==> last == Some(st.reg[h].lastHeartbeat) && (st.reg[h].status.Online? <==> !late)
    ensures h in Run(st, es).reg ==> (Run(st, es).reg[h].status.Online? <==> !Overdue(st, es, h, last, late))
    decreases |es|
  {
    if es != [] {
      var heard := HeardAt(st, es[0], h);
      if heard.Some? {
        OnlineIffNotOverdue(Apply(st, es[0]), es[1..], h, heard, false);
      } else {
        OnlineIffNotOverdue(Apply(st, es[0]), es[1..], h, last, late || TooLate(es[0], last));
      }
    }
  }

  /** So a host that center hears of in the run is online at its end exactly when
      no check has come too late after the last word of it, whatever its status
      and its last heartbeat were before. */
  lemma {:induction false} HeardIsOnlineIff(
      st: State, es: seq<Event>, s: StreamId, req: Message, last: Option<int>, late: bool)
    requires req.RegisterRequest? && Hears(st, es, s, req) && Spares(st, es, req.hostname)
    requires req.hostname in Run(st, es).reg
    ensures Run(st, es).reg[req.hostname].status.Online? <==> !Overdue(st, es, req.hostname, last, late)
    decreases |es|
  {
    var h, next := req.hostname, Apply(st, es[0]);
    var heard := HeardAt(st, es[0], h);
    if h !in st.reg {
      OnlineIffNotOverdue(st, es, h, last, late);
    } else if heard.Some? {
      OnlineIffNotOverdue(next, es[1..], h, heard, false);
    } else {
      HeardIsOnlineIff(next, es[1..], s, req, last, late || TooLate(es[0], last));
    }
  }

  // --- center's half of a recovery ---

  /** Center's half of the recovery after a proxy reconnects on stream `s`. `reqs`
      holds, for each host, a registration that center reads on the stream. When
      no store of these hosts fails and no stream they are routed over is cleaned
      up, every host is known at the end; those it did not know come via `s` with
      the announced path, and those it knew keep their route and registration
      time. A host is online exactly when no check has come too late after the last
      word of it. Heartbeats, calls, ticks and other nodes may interleave at will. */
  lemma Recovery(st: State, es: seq<Event>, s: StreamId, reqs: map<Host, Message>)
    requires forall h :: h in reqs ==> reqs[h].RegisterRequest? && reqs[h].hostname == h
    requires !IsAdding(st, s) && IsServing(Run(st, es), s)
    requires forall h :: h in reqs ==> Hears(st, es, s, reqs[h]) && Spares(st, es, h)
    ensures reqs.Keys <= Run(st, es).reg.Keys
    ensures forall h :: h in reqs && h !in st.reg && OnlyOver(st, es, s, h) && AlwaysTold(es, s, reqs[h]) ==>
      Via(Run(st, es).reg[h], s, reqs[h])
    ensures forall h :: h in reqs && h in st.reg && NobodyRegisters(st, es, h) ==>
      SameButTimes(st.reg[h], Run(st, es).reg[h])
    ensures forall h :: h in reqs ==>
      (Run(st, es).reg[h].status.Online? <==> !Overdue(st, es, h, None, false))
  {
    forall h | h in reqs
      ensures h in Run(st, es).reg
      ensures Run(st, es).reg[h].status.Online? <==> !Overdue(st, es, h, None, false)
    {
      HeardIsKnown(st, es, s, reqs[h]);
      HeardIsOnlineIff(st, es, s, reqs[h], None, false);
    }
    forall h | h in reqs && h !in st.reg && OnlyOver(st, es, s, h) && AlwaysTold(es, s, reqs[h])
      ensures Via(Run(st, es).reg[h], s, reqs[h])
    {
      NewHostsComeVia(st, es, s, reqs[h]);
    }
    forall h | h in reqs && h in st.reg && NobodyRegisters(st, es, h)
      ensures SameButTimes(st.reg[h], Run(st, es).reg[h])
    {
      KnownHostsStay(st, es, h);
    }
  }

  // --- the router inside center ---

  function RouterPart(st: State, ev: Event): seq<M.Event> {
    match ev
    case Receive(s, msg, _) => if IsServing(st, s) && msg.IsReply() then [M.Deliver(msg)] else []
    case Lookup(c, id, host, tool, args) =>
      if host in st.reg then [M.Start(c, id, host, tool, args, st.reg[host].route)] else []
    case Step(step) => if CallStep(step) then [step] else []
    case _ => []
  }

  function RouterRun(st: State, es: seq<Event>): seq<M.Event>
    decreases |es|
  {
    if es == [] then [] else RouterPart(st, es[0]) + RouterRun(Apply(st, es[0]), es[1..])
  }

  lemma RouterPartStep(st: State, ev: Event)
    ensures Apply(st, ev).router == M.Run(st.router, RouterPart(st, ev))
  {
    var part := RouterPart(st, ev);
    if part != [] {
      M.RunCons(st.router, part[0], []);
      assert part == [part[0]] + [];
    }
  }

  /** Seen from its router, a run of center is a run of the router machine, so
      what holds of every router run holds inside center. */
  lemma {:induction false} CenterRunsTheRouter(st: State, es: seq<Event>)
    ensures Run(st, es).router == M.Run(st.router, RouterRun(st, es))
    decreases |es|
  {
    if es != [] {
      var part := RouterPart(st, es[0]);
      CenterRunsTheRouter(Apply(st, es[0]), es[1..]);
      M.RunAppend(st.router, part, RouterRun(Apply(st, es[0]), es[1..]));
      RouterPartStep(st, es[0]);
    }
  }

  /** With ids free when their calls open, each call at center is isolated from
      the others, whatever the streams and the registry do. */
  lemma CallsAreIsolated(es: seq<Event>, c: M.CallId)
    requires M.Safe(M.EMPTY, RouterRun(EMPTY, es))
    ensures M.Isolated(RouterRun(EMPTY, es), c) && M.SlotsExact(Run(EMPTY, es).router)
  {
    CenterRunsTheRouter(EMPTY, es);
    M.Isolation(RouterRun(EMPTY, es), c);
    M.SlotsStayExact(M.EMPTY, RouterRun(EMPTY, es));
  }
}
