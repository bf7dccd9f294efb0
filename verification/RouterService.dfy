/** The router as the program runs it: slot objects in a map, one Send at a time
    against whatever the other goroutines do meanwhile, and the fan-out. */
module RouterService {
  import opened Tunnel
  import opened RouterMachine

  type Slots = map<RequestId, Option<Message>>

  function Offered(slots: Slots, msg: Message): Slots {
    if msg.IsReply() && msg.requestId in slots
    then slots[msg.requestId := Offer(slots[msg.requestId], msg)]
    else slots
  }

  function OfferedAll(slots: Slots, msgs: seq<Message>): Slots
    decreases |msgs|
  {
    if msgs == [] then slots else OfferedAll(Offered(slots, msgs[0]), msgs[1..])
  }

  function FirstReply(msgs: seq<Message>, id: RequestId): (r: Option<Message>)
    ensures r.Some? ==> r.value in msgs && r.value.IsReply() && r.value.requestId == id
    ensures r.None? ==> forall m :: m in msgs && m.IsReply() ==> m.requestId != id
  {
    if msgs == [] then None
    else if msgs[0].IsReply() && msgs[0].requestId == id then Some(msgs[0])
    else FirstReply(msgs[1..], id)
  }

  /** How the select of a waiting call goes: it may take a reply that is there,
      or see that its context is done. */
  datatype Choice = Reply | Done(canceled: bool)

  /** What a call to Send comes to, given what arrives while it waits. */
  function SendOutcome(id: RequestId, sendOk: bool, inbound: seq<Message>, choice: Choice, last: bool): Outcome {
    if !sendOk then SendFailed
    else if choice.Reply? && FirstReply(inbound, id).Some? then OutcomeOf(FirstReply(inbound, id).value)
    else if (if choice.Done? then choice.canceled else last) then Canceled else TimedOut
  }

  lemma {:induction false} OfferedAllAt(slots: Slots, msgs: seq<Message>, id: RequestId)
    ensures OfferedAll(slots, msgs).Keys == slots.Keys
    ensures id in slots ==>
      OfferedAll(slots, msgs)[id] == if slots[id].Some? then slots[id] else FirstReply(msgs, id)
    ensures OfferedAll(slots, msgs) - {id} == OfferedAll(slots - {id}, msgs)
    decreases |msgs|
  {
    if msgs != [] {
      OfferedAllAt(Offered(slots, msgs[0]), msgs[1..], id);
      assert Offered(slots, msgs[0]) - {id} ==
        if msgs[0].IsReply() && msgs[0].requestId == id then slots - {id} else Offered(slots - {id}, msgs[0]);
      assert msgs[0].IsReply() && msgs[0].requestId == id ==> Offered(slots - {id}, msgs[0]) == slots - {id};
    }
  }

  lemma {:induction false} OfferedAllSnoc(slots: Slots, msgs: seq<Message>, k: nat)
    requires k < |msgs|
    ensures OfferedAll(slots, msgs[..k + 1]) == Offered(OfferedAll(slots, msgs[..k]), msgs[k])
    decreases k
  {
    if k > 0 {
      OfferedAllSnoc(Offered(slots, msgs[0]), msgs[1..], k - 1);
      assert msgs[..k + 1][1..] == msgs[1..][..k] && msgs[..k][1..] == msgs[1..][..k - 1];
    } else {
      assert msgs[..1][1..] == [];
    }
  }

  class PendingSlot {
    var ch: Option<Message>

    constructor ()
      ensures ch == None
    {
      ch := None;
    }
  }

  class Router {
    const timeoutSec: int
    var pending: map<RequestId, PendingSlot>

    /** No two ids share a slot. */
    ghost predicate Valid()
      reads this
    {
      forall i, j :: i in pending && j in pending && i != j ==> pending[i] != pending[j]
    }

    function View(): Slots
      reads this`pending, pending.Values
    {
      map i | i in pending :: pending[i].ch
    }

    constructor (timeoutSec: int)
      ensures Valid() && View() == map[]
      ensures this.timeoutSec > 0 && (timeoutSec > 0 ==> this.timeoutSec == timeoutSec)
    {
      this.timeoutSec := if timeoutSec <= 0 then 5 else timeoutSec;
      pending := map[];
    }

    /** Never blocks: a reply nobody waits for, or a second one, is dropped. */
    method Deliver(requestId: RequestId, msg: Message)
      requires Valid()
      modifies pending.Values
      ensures View() ==
        if requestId in old(View()) then old(View())[requestId := Offer(old(View())[requestId], msg)] else old(View())
    {
      if requestId in pending {
        var slot := pending[requestId];
        if slot.ch.None? {
          slot.ch := Some(msg);
        }
      }
    }

    method DeliverFromMessage(msg: Message)
      requires Valid()
      modifies pending.Values
      ensures View() == Offered(old(View()), msg)
    {
      if msg.IsReply() {
        Deliver(msg.requestId, msg);
      }
    }

    /** The other goroutines, while a call waits: replies come in. */
    method DeliverAll(msgs: seq<Message>)
      requires Valid()
      modifies pending.Values
      ensures View() == OfferedAll(old(View()), msgs)
    {
      for k := 0 to |msgs|
        invariant View() == OfferedAll(old(View()), msgs[..k])
      {
        DeliverFromMessage(msgs[k]);
        OfferedAllSnoc(old(View()), msgs, k);
      }
      assert msgs[..|msgs|] == msgs;
    }

    /** One call, from its store to its deferred delete. `sendOk` is what the
        route stream answers, `inbound` what is delivered while the call waits,
        `choice` the branch the select prefers, `last` how the context ends.
        `wire` lists what the call put on its route stream. */
    method Send(host: Host, id: RequestId, tool: string, args: string,
                sendOk: bool, inbound: seq<Message>, choice: Choice, last: bool)
      returns (outcome: Outcome, wire: seq<Message>)
      requires Valid()
      modifies this, pending.Values
      ensures Valid()
      ensures outcome == SendOutcome(id, sendOk, inbound, choice, last)
      ensures View() == OfferedAll(old(View()) - {id}, if sendOk then inbound else [])
      ensures wire == [ToolRequest(id, tool, args, host)] +
                      (if outcome.TimedOut? || outcome.Canceled? then [CancelRequest(id)] else [])
    {
      ghost var before := View();
      var slot := Store(id);
      wire := [ToolRequest(id, tool, args, host)];
      if !sendOk {
        Delete(id);
        assert before[id := None] - {id} == before - {id};
        return SendFailed, wire;
      }
      DeliverAll(inbound);
      OfferedAllAt(before[id := None], inbound, id);
      assert before[id := None] - {id} == before - {id};
      assert slot.ch == View()[id];
      if choice.Reply? && slot.ch.Some? {
        outcome := OutcomeOf(slot.ch.value);
      } else {
        wire := wire + [CancelRequest(id)];
        outcome := if (if choice.Done? then choice.canceled else last) then Canceled else TimedOut;
      }
      Delete(id);
    }

    method Store(id: RequestId) returns (slot: PendingSlot)
      requires Valid()
      modifies this`pending
      ensures Valid() && fresh(slot)
      ensures pending == old(pending)[id := slot]
      ensures View() == old(View())[id := None]
    {
      slot := new PendingSlot();
      pending := pending[id := slot];
    }

    method Delete(id: RequestId)
      requires Valid()
      modifies this`pending
      ensures Valid()
      ensures pending == old(pending) - {id}
      ensures View() == old(View()) - {id}
    {
      pending := pending - {id};
    }
  }

  // --- one Send is one run of the router machine ---

  function Deliveries(msgs: seq<Message>): (es: seq<Event>)
    ensures |es| == |msgs| && forall k :: 0 <= k < |es| ==> es[k] == Deliver(msgs[k])
  {
    if msgs == [] then [] else [Deliver(msgs[0])] + Deliveries(msgs[1..])
  }

  /** The actions of the Send above, in the order of its body. */
  function Script(c: CallId, sendOk: bool, inbound: seq<Message>, id: RequestId, choice: Choice,
      last: bool): seq<Event> {
    if !sendOk then [Open(c), Transmit(c, false)] + [Return(c)]
    else [Open(c), Transmit(c, true)] +
         (Deliveries(inbound) +
          [if choice.Reply? && FirstReply(inbound, id).Some? then Take(c)
           else Expire(c, if choice.Done? then choice.canceled else last)] + [Return(c)])
  }

  lemma {:induction false} DeliveriesFill(st: State, msgs: seq<Message>, c: CallId)
    requires In(st, c, Waiting) && Owns(st, c, st.calls[c].id)
    requires forall i :: i in st.pending && st.pending[i] == c ==> i == st.calls[c].id
    ensures var end := Run(st, Deliveries(msgs));
            && In(end, c, Waiting) && end.pending == st.pending
            && end.calls[c] == st.calls[c].(slot :=
                 if st.calls[c].slot.Some? then st.calls[c].slot else FirstReply(msgs, st.calls[c].id))
    decreases |msgs|
  {
    if msgs != [] {
      var next := Apply(st, Deliver(msgs[0]));
      DeliveriesFill(next, msgs[1..], c);
      RunCons(st, Deliver(msgs[0]), Deliveries(msgs[1..]));
    }
  }

  /** The body of Send, as actions of the machine, ends with the same outcome
      and with its id out of the pending map. */
  lemma SendIsARun(st: State, c: CallId, sendOk: bool, inbound: seq<Message>, choice: Choice, last: bool)
    requires In(st, c, LookedUp) && st.calls[c].slot == None
    requires forall i :: i in st.pending ==> st.pending[i] != c
    ensures var id := st.calls[c].id;
            var end := Run(st, Script(c, sendOk, inbound, id, choice, last));
            && In(end, c, Returned(SendOutcome(id, sendOk, inbound, choice, last)))
            && end.pending == st.pending - {id}
  {
    var id := st.calls[c].id;
    var s2 := Apply(Apply(st, Open(c)), Transmit(c, sendOk));
    if !sendOk {
      RunTwo(st, Open(c), Transmit(c, false), [Return(c)]);
      assert Run(s2, [Return(c)]) == Apply(s2, Return(c));
    } else {
      var pick := if choice.Reply? && FirstReply(inbound, id).Some? then Take(c)
                  else Expire(c, if choice.Done? then choice.canceled else last);
      RunTwo(st, Open(c), Transmit(c, true), Deliveries(inbound) + [pick] + [Return(c)]);
      assert Deliveries(inbound) + [pick] + [Return(c)] == Deliveries(inbound) + ([pick, Return(c)] + []);
      RunAppend(s2, Deliveries(inbound), [pick, Return(c)] + []);
      OpenAndTransmit(st, c);
      DeliveriesFill(s2, inbound, c);
      SelectEnds(Run(s2, Deliveries(inbound)), c, pick);
    }
  }

  lemma OpenAndTransmit(st: State, c: CallId)
    requires In(st, c, LookedUp) && st.calls[c].slot == None
    requires forall i :: i in st.pending ==> st.pending[i] != c
    ensures var s2 := Apply(Apply(st, Open(c)), Transmit(c, true));
            && s2.calls == st.calls[c := st.calls[c].(phase := Waiting)]
            && s2.pending == st.pending[st.calls[c].id := c]
  {
  }

  lemma SelectEnds(st: State, c: CallId, pick: Event)
    requires In(st, c, Waiting)
    requires pick == Expire(c, true) || pick == Expire(c, false) || (pick == Take(c) && st.calls[c].slot.Some?)
    ensures var end := Run(st, [pick, Return(c)] + []);
            && In(end, c, Returned(if pick.Take? then OutcomeOf(st.calls[c].slot.value)
                                   else if pick.canceled then Canceled else TimedOut))
            && end.pending == st.pending - {st.calls[c].id}
  {
    RunTwo(st, pick, Return(c), []);
  }

  // --- the fan-out to several agents ---

  datatype Target = Target(hostname: Host, route: StreamId)
  datatype MultiResult = MultiResult(hostname: Host, outcome: Outcome)

  function MultiId(base: RequestId, hostname: Host): RequestId {
    base + "_" + hostname
  }

  lemma MultiIdsDiffer(base: RequestId, a: Host, b: Host)
    ensures MultiId(base, a) == MultiId(base, b) <==> a == b
  {
    assert MultiId(base, a)[|base| + 1..] == a;
    assert MultiId(base, b)[|base| + 1..] == b;
  }

  /** Calls with different numbers carry different ids. */
  ghost predicate DistinctIds(es: seq<Event>) {
    forall i, j :: 0 <= i < |es| && 0 <= j < |es| && es[i].Start? && es[j].Start? && es[i].c != es[j].c ==>
      es[i].id != es[j].id
  }

  ghost predicate Begun(st: State, es: seq<Event>, n: nat) {
    && n <= |es|
    && (forall c :: c in st.calls ==>
      exists k :: 0 <= k < n && es[k].Start? && es[k].c == c && es[k].id == st.calls[c].id)
    && SlotsExact(st)
    && (forall c :: c in st.calls && st.calls[c].phase.LookedUp? ==> !Owns(st, c, st.calls[c].id))
  }

  /** A run whose calls carry pairwise different ids never opens a taken id. */
  lemma DistinctIdsAreSafe(st: State, es: seq<Event>, n: nat)
    requires DistinctIds(es) && Begun(st, es, n)
    ensures Safe(st, es[n..])
    decreases |es| - n
  {
    if n < |es| {
      var ev := es[n];
      assert es[n..][0] == ev && es[n..][1..] == es[n + 1..];
      assert IdFree(st, ev);
      SlotsStep(st, ev);
      assert Begun(Apply(st, ev), es, n + 1) by { BegunStep(st, es, n); }
      DistinctIdsAreSafe(Apply(st, ev), es, n + 1);
    }
  }

  lemma BegunStep(st: State, es: seq<Event>, n: nat)
    requires Begun(st, es, n) && n < |es| && SlotsExact(Apply(st, es[n]))
    requires IdFree(st, es[n])
    ensures Begun(Apply(st, es[n]), es, n + 1)
  {
    var next := Apply(st, es[n]);
    forall c | c in next.calls
      ensures exists k :: 0 <= k < n + 1 && es[k].Start? && es[k].c == c && es[k].id == next.calls[c].id
    {
      if c in st.calls {
        assert next.calls[c].id == st.calls[c].id;
        var k :| 0 <= k < n && es[k].Start? && es[k].c == c && es[k].id == st.calls[c].id;
      } else {
        assert es[n].Start? && es[n].c == c;
      }
    }
  }

  function Settled(st: State, i: CallId): Option<Outcome> {
    if i in st.calls && st.calls[i].phase.Returned? then Some(st.calls[i].phase.outcome) else None
  }

  lemma OnlyReturnSettles(st: State, ev: Event, i: CallId)
    requires ev != Return(i)
    ensures Settled(Apply(st, ev), i) == Settled(st, i)
  {
  }

  /** What goroutine `i` of the fan-out reports if the router served only it. */
  function Alone(es: seq<Event>, i: CallId, id: RequestId): Option<Outcome> {
    Settled(Run(EMPTY, Project(es, i, id)), i)
  }

  /** Starts of the calls of this fan-out carry the id and data of their target. */
  ghost predicate StartsMatch(es: seq<Event>, targets: seq<Target>, base: RequestId, tool: string, args: string) {
    forall k :: 0 <= k < |es| && es[k].Start? ==>
      if es[k].c < |targets|
      then es[k] == Start(es[k].c, MultiId(base, targets[es[k].c].hostname), targets[es[k].c].hostname, tool, args,
        targets[es[k].c].route)
      else forall t :: t in targets ==> es[k].id != MultiId(base, t.hostname)
  }

  ghost predicate OthersDistinct(es: seq<Event>, n: nat) {
    forall i, j :: 0 <= i < |es| && 0 <= j < |es| && es[i].Start? && es[j].Start? ==>
      n <= es[i].c && n <= es[j].c && es[i].c != es[j].c ==> es[i].id != es[j].id
  }

  lemma FanOutIdsAreDistinct(es: seq<Event>, targets: seq<Target>, base: RequestId, tool: string, args: string)
    requires StartsMatch(es, targets, base, tool, args) && OthersDistinct(es, |targets|)
    requires forall i, j :: 0 <= i < j < |targets| ==> targets[i].hostname != targets[j].hostname
    ensures DistinctIds(es)
  {
    forall i, j | 0 <= i < |es| && 0 <= j < |es| && es[i].Start? && es[j].Start? && es[i].c != es[j].c
      ensures es[i].id != es[j].id
    {
      var n := |targets|;
      if es[i].c < n && es[j].c < n {
        MultiIdsDiffer(base, targets[es[i].c].hostname, targets[es[j].c].hostname);
      } else if es[i].c < n {
        assert targets[es[i].c] in targets;
      } else if es[j].c < n {
        assert targets[es[j].c] in targets;
      }
    }
  }

  /** In a fan-out to distinct hosts every call ends as it would alone. */
  lemma FanOutIsIsolated(es: seq<Event>, targets: seq<Target>, base: RequestId, tool: string, args: string, i: nat)
    requires forall i, j :: 0 <= i < j < |targets| ==> targets[i].hostname != targets[j].hostname
    requires StartsMatch(es, targets, base, tool, args) && OthersDistinct(es, |targets|)
    requires i < |targets| && Settled(Run(EMPTY, es), i).Some?
    ensures Alone(es, i, MultiId(base, targets[i].hostname)) == Settled(Run(EMPTY, es), i)
  {
    FanOutIdsAreDistinct(es, targets, base, tool, args);
    DistinctIdsAreSafe(EMPTY, es, 0);
    assert es[0..] == es;
    Isolation(es, i);
    StartedIdIs(es, i, MultiId(base, targets[i].hostname));
  }

  /** The fan-out under an arbitrary interleaving `es` of its goroutines with
      each other, with deliveries and with unrelated calls, up to the point where
      all have returned. Entry i holds target i's name and the outcome that
      target i's own request has with the router to itself. */
  method SendMulti(targets: seq<Target>, base: RequestId, tool: string, args: string, es: seq<Event>)
    returns (results: seq<Option<MultiResult>>)
    requires forall i, j :: 0 <= i < j < |targets| ==> targets[i].hostname != targets[j].hostname
    requires StartsMatch(es, targets, base, tool, args) && OthersDistinct(es, |targets|)
    requires forall i :: 0 <= i < |targets| ==> Settled(Run(EMPTY, es), i).Some?
    ensures |results| == |targets|
    ensures forall i :: 0 <= i < |targets| ==>
      && Alone(es, i, MultiId(base, targets[i].hostname)).Some?
      && results[i] == Some(MultiResult(targets[i].hostname, Alone(es, i, MultiId(base, targets[i].hostname)).value))
  {
    var slots := new Option<MultiResult>[|targets|](_ => None);
    var st := EMPTY;
    for k := 0 to |es|
      invariant st == Run(EMPTY, es[..k])
      invariant forall i :: 0 <= i < |targets| ==> slots[i] == Entry(targets[i], Settled(st, i))
    {
      RunSnoc(es, k);
      var next := Apply(st, es[k]);
      forall i | 0 <= i < |targets| && es[k] != Return(i) ensures Settled(next, i) == Settled(st, i) {
        OnlyReturnSettles(st, es[k], i);
      }
      st := next;
      if es[k].Return? && es[k].c < |targets| {
        slots[es[k].c] := Entry(targets[es[k].c], Settled(st, es[k].c));
      }
    }
    assert es[..|es|] == es;
    results := slots[..];
    forall i | 0 <= i < |targets|
      ensures Alone(es, i, MultiId(base, targets[i].hostname)) == Settled(st, i)
    {
      FanOutIsIsolated(es, targets, base, tool, args, i);
    }
  }

  function Entry(t: Target, o: Option<Outcome>): Option<MultiResult> {
    if o.Some? then Some(MultiResult(t.hostname, o.value)) else None
  }

  lemma RunSnoc(es: seq<Event>, k: nat)
    requires k < |es|
    ensures Run(EMPTY, es[..k + 1]) == Apply(Run(EMPTY, es[..k]), es[k])
  {
    assert es[..k + 1] == es[..k] + [es[k]];
    RunAppend(EMPTY, es[..k], [es[k]]);
    RunCons(Run(EMPTY, es[..k]), es[k], []);
    assert [es[k]] == [es[k]] + [];
  }

  lemma {:induction false} StartedIds(st: State, es: seq<Event>, c: CallId, id: RequestId)
    requires c in st.calls ==> st.calls[c].id == id
    requires forall k :: 0 <= k < |es| && es[k].Start? && es[k].c == c ==> es[k].id == id
    ensures c in Run(st, es).calls ==> Run(st, es).calls[c].id == id
    decreases |es|
  {
    if es != [] {
      assert es[0].Start? && es[0].c == c ==> es[0].id == id;
      forall k | 0 <= k < |es[1..]| && es[1..][k].Start? && es[1..][k].c == c ensures es[1..][k].id == id {
        assert es[1..][k] == es[k + 1];
      }
      StartedIds(Apply(st, es[0]), es[1..], c, id);
    }
  }

  lemma StartedIdIs(es: seq<Event>, c: CallId, id: RequestId)
    requires forall k :: 0 <= k < |es| && es[k].Start? && es[k].c == c ==> es[k].id == id
    ensures c in Run(EMPTY, es).calls ==> Run(EMPTY, es).calls[c].id == id
  {
    StartedIds(EMPTY, es, c, id);
  }
}
