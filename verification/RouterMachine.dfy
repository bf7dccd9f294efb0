/** Correlation of replies with waiting calls at center. A call stores a one-slot
    channel under its request id, sends, waits for a reply, a deadline or a
    cancellation, and deletes whatever is stored under its id when it returns. */
module RouterMachine {
  import opened Tunnel

  type CallId = nat

  datatype Outcome =
    | Result(json: string)
    | AgentError(code: string, message: string)
    | UnexpectedReply
    | SendFailed
    | TimedOut
    | Canceled

  /** LookedUp: the caller has its registry record; Opened: the slot is stored;
      Waiting: the request is on the wire; Decided: the select has chosen;
      Returned: the deferred delete has run. */
  datatype Phase = LookedUp | Opened | Waiting | Decided(outcome: Outcome) | Returned(outcome: Outcome)

  datatype Call = Call(
    id: RequestId, host: Host, tool: string, args: string, route: StreamId,
    phase: Phase, slot: Option<Message>)

  datatype State = State(pending: map<RequestId, CallId>, calls: map<CallId, Call>)

  const EMPTY := State(map[], map[])

  datatype Event =
    | Start(c: CallId, id: RequestId, host: Host, tool: string, args: string, route: StreamId)
    | Open(c: CallId)
    | Transmit(c: CallId, ok: bool)
    | Deliver(msg: Message)
    | Take(c: CallId)
    | Expire(c: CallId, canceled: bool)
    | Return(c: CallId)

  predicate InFlight(call: Call) {
    call.phase.Opened? || call.phase.Waiting? || call.phase.Decided?
  }

  /** A send to a one-slot channel that gives up when the slot is full. */
  function Offer(slot: Option<Message>, msg: Message): Option<Message> {
    if slot.None? then Some(msg) else slot
  }

  function OutcomeOf(msg: Message): Outcome {
    match msg
    case ToolResponse(_, json) => Result(json)
    case ErrorResponse(_, code, message) => AgentError(code, message)
    case _ => UnexpectedReply
  }

  function SetPhase(st: State, c: CallId, phase: Phase): State
    requires c in st.calls
  {
    st.(calls := st.calls[c := st.calls[c].(phase := phase)])
  }

  predicate In(st: State, c: CallId, phase: Phase) {
    c in st.calls && st.calls[c].phase == phase
  }

  /** One atomic action; an action whose time has not come changes nothing. */
  function Apply(st: State, ev: Event): State {
    match ev
    case Start(c, id, host, tool, args, route) =>
      if c in st.calls then st
      else st.(calls := st.calls[c := Call(id, host, tool, args, route, LookedUp, None)])
    case Open(c) =>
      if In(st, c, LookedUp) then SetPhase(st, c, Opened).(pending := st.pending[st.calls[c].id := c]) else st
    case Transmit(c, ok) =>
      if In(st, c, Opened) then SetPhase(st, c, if ok then Waiting else Decided(SendFailed)) else st
    case Deliver(msg) =>
      if msg.IsReply() && msg.requestId in st.pending && st.pending[msg.requestId] in st.calls then
        var c := st.pending[msg.requestId];
        st.(calls := st.calls[c := st.calls[c].(slot := Offer(st.calls[c].slot, msg))])
      else st
    case Take(c) =>
      if In(st, c, Waiting) && st.calls[c].slot.Some? then
        var taken := SetPhase(st, c, Decided(OutcomeOf(st.calls[c].slot.value)));
        taken.(calls := taken.calls[c := taken.calls[c].(slot := None)])
      else st
    case Expire(c, canceled) =>
      if In(st, c, Waiting) then SetPhase(st, c, Decided(if canceled then Canceled else TimedOut)) else st
    case Return(c) =>
      if c in st.calls && st.calls[c].phase.Decided? then
        SetPhase(st, c, Returned(st.calls[c].phase.outcome)).(pending := st.pending - {st.calls[c].id})
      else st
  }

  function Run(st: State, es: seq<Event>): State
    decreases |es|
  {
    if es == [] then st else Run(Apply(st, es[0]), es[1..])
  }

  lemma {:induction false} RunAppend(st: State, a: seq<Event>, b: seq<Event>)
    ensures Run(st, a + b) == Run(Run(st, a), b)
    decreases |a|
  {
    if a == [] {
      assert a + b == b;
    } else {
      assert (a + b)[0] == a[0] && (a + b)[1..] == a[1..] + b;
      RunAppend(Apply(st, a[0]), a[1..], b);
    }
  }

  lemma RunCons(st: State, ev: Event, rest: seq<Event>)
    ensures Run(st, [ev] + rest) == Run(Apply(st, ev), rest)
  {
    assert ([ev] + rest)[1..] == rest;
  }

  // --- slots under distinct in-flight ids ---

  /** The condition a caller of Send can check: no call holds this id now. */
  predicate IdFree(st: State, ev: Event) {
    ev.Open? && In(st, ev.c, LookedUp) ==> st.calls[ev.c].id !in st.pending
  }

  /** Every call in the run opened its slot while its id was free. */
  predicate Safe(st: State, es: seq<Event>)
    decreases |es|
  {
    es == [] || (IdFree(st, es[0]) && Safe(Apply(st, es[0]), es[1..]))
  }

  /** The pending map is exactly the calls in flight, by id, and a filled slot
      holds a reply to the call's own id. */
  ghost predicate SlotsExact(st: State) {
    && (forall c :: c in st.calls && InFlight(st.calls[c]) ==>
          st.calls[c].id in st.pending && st.pending[st.calls[c].id] == c)
    && (forall i :: i in st.pending ==>
          && st.pending[i] in st.calls
          && st.calls[st.pending[i]].id == i
          && InFlight(st.calls[st.pending[i]]))
    && (forall c :: c in st.calls && st.calls[c].slot.Some? ==>
          && st.calls[c].slot.value.IsReply()
          && st.calls[c].slot.value.requestId == st.calls[c].id)
  }

  lemma SlotsStep(st: State, ev: Event)
    requires SlotsExact(st) && IdFree(st, ev)
    ensures SlotsExact(Apply(st, ev))
  {
    var st' := Apply(st, ev);
    match ev
    case Start(_, _, _, _, _, _) =>
    case Open(_) =>
    case Transmit(_, _) =>
    case Deliver(_) =>
    case Take(_) =>
    case Expire(_, _) =>
    case Return(_) =>
  }

  lemma {:induction false} SlotsStayExact(st: State, es: seq<Event>)
    requires SlotsExact(st) && Safe(st, es)
    ensures SlotsExact(Run(st, es))
    decreases |es|
  {
    if es != [] {
      SlotsStep(st, es[0]);
      SlotsStayExact(Apply(st, es[0]), es[1..]);
    }
  }

  lemma {:induction false} IdsAreFixed(st: State, es: seq<Event>, c: CallId)
    requires c in st.calls
    ensures c in Run(st, es).calls && Run(st, es).calls[c].id == st.calls[c].id
    decreases |es|
  {
    if es != [] {
      IdsAreFixed(Apply(st, es[0]), es[1..], c);
    }
  }

  // --- isolation: what the other calls do never shows ---

  /** The actions call `c` with id `id` takes part in, and the replies to its id. */
  predicate Concerns(ev: Event, c: CallId, id: RequestId) {
    if ev.Deliver? then ev.msg.IsReply() && ev.msg.requestId == id else ev.c == c
  }

  function Project(es: seq<Event>, c: CallId, id: RequestId): seq<Event>
    decreases |es|
  {
    if es == [] then []
    else (if Concerns(es[0], c, id) then [es[0]] else []) + Project(es[1..], c, id)
  }

  predicate Owns(st: State, c: CallId, id: RequestId) {
    id in st.pending && st.pending[id] == c
  }

  ghost predicate Same(full: State, alone: State, c: CallId, id: RequestId) {
    && (c in full.calls <==> c in alone.calls)
    && (c in full.calls ==> full.calls[c] == alone.calls[c] && full.calls[c].id == id)
    && (id in alone.pending ==> alone.pending[id] == c)
    && (Owns(full, c, id) <==> Owns(alone, c, id))
  }

  lemma SameStep(full: State, alone: State, c: CallId, id: RequestId, ev: Event)
    requires SlotsExact(full) && Same(full, alone, c, id) && IdFree(full, ev)
    requires ev.Start? && ev.c == c && c !in full.calls ==> ev.id == id
    ensures Same(Apply(full, ev), if Concerns(ev, c, id) then Apply(alone, ev) else alone, c, id)
  {
    match ev
    case Start(_, _, _, _, _, _) =>
    case Open(_) =>
    case Transmit(_, _) =>
    case Deliver(_) =>
    case Take(_) =>
    case Expire(_, _) =>
    case Return(d) =>
      if d != c && d in full.calls && full.calls[d].phase.Decided? {
        assert full.pending[full.calls[d].id] == d;
      }
  }

  lemma {:induction false} SameRun(full: State, alone: State, es: seq<Event>, c: CallId, id: RequestId)
    requires SlotsExact(full) && Same(full, alone, c, id) && Safe(full, es)
    requires c in Run(full, es).calls ==> Run(full, es).calls[c].id == id
    ensures Same(Run(full, es), Run(alone, Project(es, c, id)), c, id)
    decreases |es|
  {
    if es != [] {
      var ev, next := es[0], Apply(full, es[0]);
      if c in next.calls {
        IdsAreFixed(next, es[1..], c);
      }
      SlotsStep(full, ev);
      SameStep(full, alone, c, id, ev);
      var alone' := if Concerns(ev, c, id) then Apply(alone, ev) else alone;
      SameRun(next, alone', es[1..], c, id);
      var rest := Project(es[1..], c, id);
      if Concerns(ev, c, id) {
        assert Project(es, c, id) == [ev] + rest;
        assert ([ev] + rest)[1..] == rest;
      } else {
        assert Project(es, c, id) == rest;
      }
    }
  }

  /** After the run, call `c` is exactly where it would be had the router served
      nobody else. */
  ghost predicate Isolated(es: seq<Event>, c: CallId) {
    var full := Run(EMPTY, es);
    c in full.calls ==>
      var alone := Run(EMPTY, Project(es, c, full.calls[c].id));
      c in alone.calls && alone.calls[c] == full.calls[c]
  }

  /** With ids distinct among the calls in flight, late, duplicate and unknown
      replies and all other calls leave the outcome of a call alone. */
  lemma Isolation(es: seq<Event>, c: CallId)
    requires Safe(EMPTY, es)
    ensures Isolated(es, c)
  {
    var full := Run(EMPTY, es);
    if c in full.calls {
      SameRun(EMPTY, EMPTY, es, c, full.calls[c].id);
    }
  }

  // --- and without distinct ids it fails ---

  function Extended(es: seq<Event>, d: CallId, more: seq<Event>): seq<Event> {
    es + [Open(d)] + more
  }

  lemma {:induction false} SafeAppend(st: State, a: seq<Event>, b: seq<Event>)
    ensures Safe(st, a + b) <==> Safe(st, a) && Safe(Run(st, a), b)
    decreases |a|
  {
    if a == [] {
      assert a + b == b;
    } else {
      assert (a + b)[0] == a[0] && (a + b)[1..] == a[1..] + b;
      SafeAppend(Apply(st, a[0]), a[1..], b);
    }
  }

  lemma {:induction false} ProjectAppend(a: seq<Event>, b: seq<Event>, c: CallId, id: RequestId)
    ensures Project(a + b, c, id) == Project(a, c, id) + Project(b, c, id)
    decreases |a|
  {
    if a == [] {
      assert a + b == b;
    } else {
      assert (a + b)[0] == a[0] && (a + b)[1..] == a[1..] + b;
      ProjectAppend(a[1..], b, c, id);
    }
  }

  /** How the call that already holds the id goes away, whatever its phase:
      its deferred delete then takes the newcomer's slot with it. */
  function Leaving(call: Call, c: CallId): seq<Event> {
    match call.phase
    case Opened => [Transmit(c, false), Return(c)]
    case Waiting => [Expire(c, false), Return(c)]
    case _ => [Return(c)]
  }

  /** The continuation that strands `d`: the earlier call returns, then the
      answer to `d` arrives. */
  function Stranding(call: Call, c: CallId): seq<Event> {
    Leaving(call, c) + [Deliver(ToolResponse(call.id, ""))]
  }

  lemma {:induction false} ProjectNothing(es: seq<Event>, d: CallId, id: RequestId)
    requires forall k :: 0 <= k < |es| ==> !Concerns(es[k], d, id)
    ensures Project(es, d, id) == []
  {
    if es != [] {
      assert !Concerns(es[0], d, id);
      ProjectNothing(es[1..], d, id);
    }
  }

  lemma LeavingEffect(st: State, c: CallId, d: CallId)
    requires c in st.calls && InFlight(st.calls[c]) && d in st.calls && c != d
    ensures var leave := Leaving(st.calls[c], c);
            var gone := Run(st, leave);
            && d in gone.calls && gone.calls[d] == st.calls[d]
            && st.calls[c].id !in gone.pending
            && Safe(st, leave)
            && Project(leave, d, st.calls[d].id) == []
  {
    var leave := Leaving(st.calls[c], c);
    assert leave[1..] == [] || leave[1..] == [Return(c)];
    ProjectNothing(leave, d, st.calls[d].id);
    if |leave| == 2 {
      RunCons(st, leave[0], [Return(c)]);
      assert leave == [leave[0]] + [Return(c)];
      assert Run(Apply(st, leave[0]), [Return(c)]) == Apply(Apply(st, leave[0]), Return(c));
    } else {
      assert Run(st, leave) == Apply(st, Return(c));
    }
  }

  lemma OverlapStrands(es: seq<Event>, d: CallId)
    requires Safe(EMPTY, es)
    requires In(Run(EMPTY, es), d, LookedUp) && Run(EMPTY, es).calls[d].id in Run(EMPTY, es).pending
    ensures var st := Run(EMPTY, es);
            var c := st.pending[st.calls[d].id];
            && c in st.calls && c != d
            && Safe(Apply(st, Open(d)), Stranding(st.calls[c], c))
            && !Isolated(Extended(es, d, Stranding(st.calls[c], c)), d)
  {
    var st := Run(EMPTY, es);
    SlotsStayExact(EMPTY, es);
    var id := st.calls[d].id;
    var c := st.pending[id];
    var leave, reply := Leaving(st.calls[c], c), Deliver(ToolResponse(id, ""));
    StrandedFull(es, d, c, id, leave, reply);
    StrandedAlone(es, d, c, id, leave, reply);
    assert Extended(es, d, Stranding(st.calls[c], c)) == es + [Open(d)] + (leave + [reply]);
  }

  /** In the full run `d` keeps an empty slot and has lost its entry. */
  lemma StrandedFull(es: seq<Event>, d: CallId, c: CallId, id: RequestId, leave: seq<Event>, reply: Event)
    requires Safe(EMPTY, es) && SlotsExact(Run(EMPTY, es)) && In(Run(EMPTY, es), d, LookedUp)
    requires var st := Run(EMPTY, es); id == st.calls[d].id && id in st.pending && c == st.pending[id]
    requires leave == Leaving(Run(EMPTY, es).calls[c], c) && reply == Deliver(ToolResponse(id, ""))
    ensures var full := Run(EMPTY, es + [Open(d)] + (leave + [reply]));
            d in full.calls && full.calls[d].id == id && full.calls[d].slot == None
    ensures Safe(Apply(Run(EMPTY, es), Open(d)), leave + [reply])
  {
    var st := Run(EMPTY, es);
    SlotOfLookedUp(EMPTY, es);
    var both := Apply(st, Open(d));
    LeavingEffect(both, c, d);
    var gone := Run(both, leave);
    RunAppend(both, leave, [reply]);
    SafeAppend(both, leave, [reply]);
    assert Run(gone, [reply]) == Apply(gone, reply) == gone;
    RunAppend(EMPTY, es + [Open(d)], leave + [reply]);
    RunAppend(EMPTY, es, [Open(d)]);
    assert Run(st, [Open(d)]) == both;
  }

  /** Alone, `d` gets the reply. */
  lemma StrandedAlone(es: seq<Event>, d: CallId, c: CallId, id: RequestId, leave: seq<Event>, reply: Event)
    requires Safe(EMPTY, es) && SlotsExact(Run(EMPTY, es)) && In(Run(EMPTY, es), d, LookedUp)
    requires var st := Run(EMPTY, es); id == st.calls[d].id && id in st.pending && c == st.pending[id]
    requires leave == Leaving(Run(EMPTY, es).calls[c], c) && reply == Deliver(ToolResponse(id, ""))
    ensures var alone := Run(EMPTY, Project(es + [Open(d)] + (leave + [reply]), d, id));
            d in alone.calls && alone.calls[d].slot.Some?
  {
    var p := Project(es, d, id);
    SameRun(EMPTY, EMPTY, es, d, id);
    var alone := Run(EMPTY, p);
    LeavingEffect(Apply(Run(EMPTY, es), Open(d)), c, d);
    ProjectAppend(es + [Open(d)], leave + [reply], d, id);
    ProjectAppend(es, [Open(d)], d, id);
    ProjectAppend(leave, [reply], d, id);
    assert Project([Open(d)], d, id) == [Open(d)] && Project([reply], d, id) == [reply];
    assert Project(es + [Open(d)] + (leave + [reply]), d, id) == p + ([Open(d)] + [reply]);
    RunAppend(EMPTY, p, [Open(d)] + [reply]);
    RunCons(alone, Open(d), [reply]);
    assert Run(Apply(alone, Open(d)), [reply]) == Apply(Apply(alone, Open(d)), reply);
  }

  ghost predicate LookedUpIsEmpty(st: State) {
    forall d :: In(st, d, LookedUp) ==> st.calls[d].slot == None
  }

  /** A slot that is not stored yet cannot be filled. */
  lemma {:induction false} SlotOfLookedUp(st: State, es: seq<Event>)
    requires SlotsExact(st) && Safe(st, es) && LookedUpIsEmpty(st)
    ensures LookedUpIsEmpty(Run(st, es))
    decreases |es|
  {
    if es != [] {
      SlotsStep(st, es[0]);
      LookedUpStep(st, es[0]);
      SlotOfLookedUp(Apply(st, es[0]), es[1..]);
    }
  }

  lemma LookedUpStep(st: State, ev: Event)
    requires SlotsExact(st) && LookedUpIsEmpty(st)
    ensures LookedUpIsEmpty(Apply(st, ev))
  {
    forall d | In(Apply(st, ev), d, LookedUp) ensures Apply(st, ev).calls[d].slot == None {
      assert d in st.calls ==> In(st, d, LookedUp);
    }
  }

  /** Exactly when it is safe to open a call: its id is free, if and only if
      every continuation in which later calls take free ids keeps every call
      isolated from the others. */
  lemma OpenIsSafeIffIdFree(es: seq<Event>, d: CallId)
    requires Safe(EMPTY, es) && In(Run(EMPTY, es), d, LookedUp)
    ensures var st := Run(EMPTY, es);
            st.calls[d].id !in st.pending <==>
            forall more, c :: Safe(Apply(st, Open(d)), more) ==> Isolated(Extended(es, d, more), c)
  {
    var st := Run(EMPTY, es);
    if st.calls[d].id !in st.pending {
      forall more, c | Safe(Apply(st, Open(d)), more) ensures Isolated(Extended(es, d, more), c) {
        SafeAppend(EMPTY, es, [Open(d)]);
        RunAppend(EMPTY, es, [Open(d)]);
        assert Run(st, [Open(d)]) == Apply(st, Open(d)) && Safe(st, [Open(d)]);
        SafeAppend(EMPTY, es + [Open(d)], more);
        Isolation(Extended(es, d, more), c);
      }
    } else {
      OverlapStrands(es, d);
    }
  }

  /** Two calls under one id, say to two hosts: whichever node answers, the
      later call takes the answer and the earlier one keeps waiting. A built-in
      action on several nodes starts its calls this way. */
  lemma SharedIdCrossesAnswers(st: State, c: CallId, d: CallId, reply: Message)
    requires c != d && In(st, c, LookedUp) && In(st, d, LookedUp)
    requires st.calls[c].id == st.calls[d].id && st.calls[c].slot == st.calls[d].slot == None
    requires reply.IsReply() && reply.requestId == st.calls[c].id
    ensures var es := [Open(c), Open(d)] + ([Transmit(c, true), Transmit(d, true)] + [Deliver(reply), Take(d)]);
            var end := Run(st, es);
            && In(end, d, Decided(OutcomeOf(reply)))
            && In(end, c, Waiting) && end.calls[c].slot == None
  {
    RunTwo(st, Open(c), Open(d), [Transmit(c, true), Transmit(d, true)] + [Deliver(reply), Take(d)]);
    var s2 := Apply(Apply(st, Open(c)), Open(d));
    RunTwo(s2, Transmit(c, true), Transmit(d, true), [Deliver(reply), Take(d)]);
    var s4 := Apply(Apply(s2, Transmit(c, true)), Transmit(d, true));
    RunTwo(s4, Deliver(reply), Take(d), []);
    assert [Deliver(reply), Take(d)] == [Deliver(reply), Take(d)] + [];
  }

  lemma RunTwo(st: State, e0: Event, e1: Event, rest: seq<Event>)
    ensures Run(st, [e0, e1] + rest) == Run(Apply(Apply(st, e0), e1), rest)
  {
    RunCons(st, e0, [e1] + rest);
    RunCons(Apply(st, e0), e1, rest);
    assert [e0, e1] + rest == [e0] + ([e1] + rest);
  }
}
