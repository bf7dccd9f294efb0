/** The agent: each tool request runs in its own goroutine with a cancel
    function stored under the request id. */
module Agent {
  import opened Tunnel

  type RunId = nat

  datatype Finding = Result(json: string) | ToolError(message: string) | NoSuchTool

  /** Live: the handler may be running; Answered: its one reply was attempted;
      Ended: the deferred cleanup has run. */
  datatype Phase = Live | Answered(finding: Finding) | Ended(finding: Finding)

  datatype Task = Task(id: RequestId, tool: string, args: string, canceled: bool, phase: Phase)

  datatype State = State(tools: set<string>, cancelFns: map<RequestId, RunId>, tasks: map<RunId, Task>)

  function Initial(tools: set<string>): State {
    State(tools, map[], map[])
  }

  datatype Event =
    | Dispatch(r: RunId, msg: Message)
    | HandlerEnds(r: RunId, finding: Finding)
    | Cleanup(r: RunId)

  function ReplyTo(id: RequestId, tool: string, finding: Finding): Message {
    match finding
    case Result(json) => ToolResponse(id, json)
    case ToolError(message) => ErrorResponse(id, "TOOL_ERROR", message)
    case NoSuchTool => ErrorResponse(id, "TOOL_NOT_FOUND", "tool \"" + tool + "\" not found")
  }

  /** What a handler run may end with: an unknown tool has no handler. */
  predicate Possible(st: State, r: RunId, finding: Finding) {
    && r in st.tasks && st.tasks[r].phase.Live?
    && (finding.NoSuchTool? <==> st.tasks[r].tool !in st.tools)
  }

  function Apply(st: State, ev: Event): State {
    match ev
    case Dispatch(r, CancelRequest(id)) =>
      if id in st.cancelFns && st.cancelFns[id] in st.tasks then
        var t := st.cancelFns[id];
        st.(cancelFns := st.cancelFns - {id}, tasks := st.tasks[t := st.tasks[t].(canceled := true)])
      else st
    case Dispatch(r, ToolRequest(id, tool, args, _)) =>
      if r in st.tasks then st
      else st.(cancelFns := st.cancelFns[id := r], tasks := st.tasks[r := Task(id, tool, args, false, Live)])
    case Dispatch(_, _) => st
    case HandlerEnds(r, finding) =>
      if Possible(st, r, finding) then st.(tasks := st.tasks[r := st.tasks[r].(phase := Answered(finding))]) else st
    case Cleanup(r) =>
      if r in st.tasks && st.tasks[r].phase.Answered? then
        st.(cancelFns := st.cancelFns - {st.tasks[r].id},
            tasks := st.tasks[r := st.tasks[r].(canceled := true, phase := Ended(st.tasks[r].phase.finding))])
      else st
  }

  /** The reply a step attempts to send upstream. */
  function Outputs(st: State, ev: Event): seq<Message> {
    if ev.HandlerEnds? && Possible(st, ev.r, ev.finding)
      then [ReplyTo(st.tasks[ev.r].id, st.tasks[ev.r].tool, ev.finding)] else []
  }

  function Run(st: State, es: seq<Event>): State
    decreases |es|
  {
    if es == [] then st else Run(Apply(st, es[0]), es[1..])
  }

  function Sent(st: State, es: seq<Event>): seq<Message>
    decreases |es|
  {
    if es == [] then [] else Outputs(st, es[0]) + Sent(Apply(st, es[0]), es[1..])
  }

  // --- the cancel map ---

  ghost predicate CancelsLive(st: State) {
    forall id :: id in st.cancelFns ==>
      st.cancelFns[id] in st.tasks && st.tasks[st.cancelFns[id]].id == id && !st.tasks[st.cancelFns[id]].phase.Ended?
  }

  lemma {:induction false} CancelFnsHoldUnfinished(st: State, es: seq<Event>)
    requires CancelsLive(st)
    ensures CancelsLive(Run(st, es))
    ensures (forall r :: r in Run(st, es).tasks ==> Run(st, es).tasks[r].phase.Ended?) ==>
      Run(st, es).cancelFns == map[]
    decreases |es|
  {
    if es != [] {
      CancelsLiveStep(st, es[0]);
      CancelFnsHoldUnfinished(Apply(st, es[0]), es[1..]);
    }
  }

  lemma CancelsLiveStep(st: State, ev: Event)
    requires CancelsLive(st)
    ensures CancelsLive(Apply(st, ev))
  {
  }

  /** Requests dispatched so far and those still to come never share an id. */
  predicate DistinctIds(st: State, es: seq<Event>)
    decreases |es|
  {
    es == [] ||
    (&& (es[0].Dispatch? && es[0].msg.ToolRequest? ==>
      forall r :: r in st.tasks ==> st.tasks[r].id != es[0].msg.requestId)
     && DistinctIds(Apply(st, es[0]), es[1..]))
  }

  /** Every unfinished task that nobody canceled can still be canceled by its id. */
  ghost predicate AllCancelable(st: State) {
    && (forall r, q :: r in st.tasks && q in st.tasks && r != q ==> st.tasks[r].id != st.tasks[q].id)
    && (forall r :: r in st.tasks && !st.tasks[r].phase.Ended? && !st.tasks[r].canceled ==>
          st.tasks[r].id in st.cancelFns && st.cancelFns[st.tasks[r].id] == r)
  }

  lemma AllCancelableStep(st: State, ev: Event)
    requires AllCancelable(st) && CancelsLive(st)
    requires ev.Dispatch? && ev.msg.ToolRequest? ==> forall r :: r in st.tasks ==> st.tasks[r].id != ev.msg.requestId
    ensures AllCancelable(Apply(st, ev))
  {
  }

  lemma {:induction false} CancelReaches(st: State, es: seq<Event>)
    requires AllCancelable(st) && CancelsLive(st) && DistinctIds(st, es)
    ensures AllCancelable(Run(st, es)) && CancelsLive(Run(st, es))
    decreases |es|
  {
    if es != [] {
      CancelsLiveStep(st, es[0]);
      AllCancelableStep(st, es[0]);
      CancelReaches(Apply(st, es[0]), es[1..]);
    }
  }

  /** In every run with distinct ids, a cancel for the id of an unfinished task
      cancels that task's context and touches no other task. */
  lemma CancelIsExact(tools: set<string>, es: seq<Event>, r: RunId, q: RunId)
    requires DistinctIds(Initial(tools), es)
    requires r in Run(Initial(tools), es).tasks && !Run(Initial(tools), es).tasks[r].phase.Ended?
    ensures var st := Run(Initial(tools), es);
            var next := Apply(st, Dispatch(q, CancelRequest(st.tasks[r].id)));
            && next.tasks.Keys == st.tasks.Keys
            && next.tasks[r] == st.tasks[r].(canceled := true)
            && st.tasks[r].id !in next.cancelFns
            && forall t :: t in st.tasks && t != r ==> next.tasks[t] == st.tasks[t]
  {
    CancelReaches(Initial(tools), es);
  }

  /** Reusing an id takes the earlier task out of reach: a cancel then goes to
      the later one only. */
  lemma ReusedIdShieldsEarlier(st: State, r: RunId, q: RunId, id: RequestId, tool: string, args: string, host: Host)
    requires r in st.tasks && st.tasks[r].id == id && st.tasks[r].phase.Live? && !st.tasks[r].canceled && q !in st.tasks
    ensures var again := Apply(st, Dispatch(q, ToolRequest(id, tool, args, host)));
            var next := Apply(again, Dispatch(q, CancelRequest(id)));
            && next.tasks[r] == st.tasks[r]
            && next.tasks[q].canceled
            && id !in next.cancelFns
  {
  }

  // --- replies ---

  function RepliesOf(st: State, es: seq<Event>, r: RunId): seq<Message>
    decreases |es|
  {
    if es == [] then []
    else
      var own := if es[0].HandlerEnds? && es[0].r == r then Outputs(st, es[0]) else [];
      own + RepliesOf(Apply(st, es[0]), es[1..], r)
  }

  /** Each request whose handler ends attempts exactly one reply, under its own
      id; one whose handler still runs has attempted none. */
  lemma {:induction false} OneReplyEach(st: State, es: seq<Event>, r: RunId)
    requires r in st.tasks && st.tasks[r].phase.Live?
    ensures var end := Run(st, es);
            && r in end.tasks && end.tasks[r].id == st.tasks[r].id && end.tasks[r].tool == st.tasks[r].tool
            && RepliesOf(st, es, r) ==
                 if end.tasks[r].phase.Live? then []
                 else [ReplyTo(st.tasks[r].id, st.tasks[r].tool, end.tasks[r].phase.finding)]
    decreases |es|
  {
    if es != [] {
      var next := Apply(st, es[0]);
      if next.tasks[r].phase.Live? {
        OneReplyEach(next, es[1..], r);
      } else {
        NoMoreReplies(next, es[1..], r);
        assert RepliesOf(st, es, r) == [ReplyTo(st.tasks[r].id, st.tasks[r].tool, es[0].finding)] + [];
      }
    }
  }

  lemma {:induction false} NoMoreReplies(st: State, es: seq<Event>, r: RunId)
    requires r in st.tasks && !st.tasks[r].phase.Live?
    ensures var end := Run(st, es);
            && RepliesOf(st, es, r) == []
            && r in end.tasks && end.tasks[r].id == st.tasks[r].id && end.tasks[r].tool == st.tasks[r].tool
            && !end.tasks[r].phase.Live? && end.tasks[r].phase.finding == st.tasks[r].phase.finding
    decreases |es|
  {
    if es != [] {
      NoMoreReplies(Apply(st, es[0]), es[1..], r);
    }
  }

  /** `m` is what task `r` has to say, and its handler has ended. */
  predicate Answers(st: State, r: RunId, m: Message) {
    r in st.tasks && !st.tasks[r].phase.Live?
      && m == ReplyTo(st.tasks[r].id, st.tasks[r].tool, st.tasks[r].phase.finding)
  }

  /** Nothing else is sent: every reply answers the id of some task with what its
      handler found. */
  lemma {:induction false} RepliesAreAnswers(st: State, es: seq<Event>, m: Message)
    requires m in Sent(st, es)
    ensures exists r :: Answers(Run(st, es), r, m)
    decreases |es|
  {
    var next := Apply(st, es[0]);
    assert Run(st, es) == Run(next, es[1..]);
    if m in Outputs(st, es[0]) {
      NoMoreReplies(next, es[1..], es[0].r);
      assert Answers(Run(next, es[1..]), es[0].r, m);
    } else {
      RepliesAreAnswers(next, es[1..], m);
    }
  }

  // --- the agent itself ---

  class CancelFunc {
    const run: RunId
    var called: bool

    constructor (run: RunId)
      ensures this.run == run && !called
    {
      this.run, this.called := run, false;
    }
  }

  /** dispatch, as the agent's reader runs it, and the body of its goroutines. */
  class ToolAgent {
    const tools: set<string>
    var cancelFns: map<RequestId, CancelFunc>
    var upstream: seq<Message>
    var nextRun: RunId
    ghost var state: State

    ghost predicate Valid()
      reads this
    {
      && state.tools == tools
      && CancelsLive(state)
      && cancelFns.Keys == state.cancelFns.Keys
      && (forall id :: id in cancelFns ==> cancelFns[id].run == state.cancelFns[id])
      && (forall r :: r in state.tasks ==> r < nextRun)
    }

    constructor (tools: set<string>)
      ensures Valid() && state == Initial(tools) && upstream == [] && cancelFns == map[]
    {
      this.tools := tools;
      cancelFns, upstream, nextRun := map[], [], 0;
      state := Initial(tools);
    }

    /** A cancel takes its function out of the map and calls it; a request gets a
        context and a goroutine; anything else is ignored. */
    method Dispatch(msg: Message)
      requires Valid()
      modifies this, cancelFns.Values
      ensures Valid() && upstream == old(upstream)
      ensures state == Apply(old(state), Event.Dispatch(old(nextRun), msg))
      ensures forall i :: i in old(cancelFns) ==>
        old(cancelFns)[i].called == (old(cancelFns[i].called) || (msg.CancelRequest? && i == msg.requestId))
    {
      state := Apply(state, Event.Dispatch(nextRun, msg));
      match msg {
        case CancelRequest(id) =>
          if id in cancelFns {
            var fn := cancelFns[id];
            cancelFns := cancelFns - {id};
            fn.called := true;
          }
        case ToolRequest(id, _, _, _) =>
          var cancel := new CancelFunc(nextRun);
          cancelFns := cancelFns[id := cancel];
          nextRun := nextRun + 1;
        case _ =>
      }
    }

    /** The goroutine of a request from its lookup of the handler to its deferred
        cleanup. `finding` is what the handler, if there is one, comes back with. */
    method Serve(r: RunId, id: RequestId, tool: string, cancel: CancelFunc, finding: Finding)
      requires Valid()
      requires r in state.tasks && state.tasks[r].phase.Live? && state.tasks[r].id == id && state.tasks[r].tool == tool
      requires !finding.NoSuchTool?
      modifies this, cancel
      ensures Valid() && cancel.called
      ensures var f := if tool in tools then finding else NoSuchTool;
              && upstream == old(upstream) + [ReplyTo(id, tool, f)]
              && state == Apply(Apply(old(state), HandlerEnds(r, f)), Cleanup(r))
              && r in state.tasks && state.tasks[r].phase == Ended(f)
    {
      if tool !in tools {
        SendError(id, "TOOL_NOT_FOUND", "tool \"" + tool + "\" not found");
        state := Apply(state, HandlerEnds(r, NoSuchTool));
      } else {
        match finding {
          case ToolError(message) => SendError(id, "TOOL_ERROR", message);
          case Result(json) => upstream := upstream + [ToolResponse(id, json)];
        }
        state := Apply(state, HandlerEnds(r, finding));
      }
      Finish(r, id, cancel);
    }

    method Finish(r: RunId, id: RequestId, cancel: CancelFunc)
      requires Valid() && r in state.tasks && state.tasks[r].phase.Answered? && state.tasks[r].id == id
      modifies this`cancelFns, this`state, cancel
      ensures Valid() && cancel.called && cancelFns == old(cancelFns) - {id}
      ensures state == Apply(old(state), Cleanup(r))
    {
      cancel.called := true;
      cancelFns := cancelFns - {id};
      CancelsLiveStep(state, Cleanup(r));
      state := Apply(state, Cleanup(r));
    }

    method SendError(id: RequestId, code: string, message: string)
      modifies this`upstream
      ensures upstream == old(upstream) + [ErrorResponse(id, code, message)]
    {
      upstream := upstream + [ErrorResponse(id, code, message)];
    }
  }
}
