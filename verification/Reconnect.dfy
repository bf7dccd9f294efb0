/** How a proxy comes back: the order of events in one upstream connection, the
    waits between connections, and what makes center know its hosts again. */
module Reconnect {
  import opened Tunnel
  import R = Registry
  import C = Center
  import P = Proxy
  import opened ProxyService

  /** One try: whether the stream opened and the registration went out, the ack
      that came back, and the messages read until the stream failed, each with
      the answer of the node stream it is forwarded to. */
  datatype Attempt = Attempt(dialed: bool, ack: Option<bool>, s: StreamId, inbox: seq<(Message, bool)>)

  predicate IsServed(a: Attempt) {
    a.dialed && a.ack == Some(true)
  }

  function ReaderLoop(inbox: seq<(Message, bool)>): seq<P.Event>
    decreases |inbox|
  {
    if inbox == [] then []
    else ReaderLoop(inbox[..|inbox| - 1]) + ReaderEvents(inbox[|inbox| - 1].0, inbox[|inbox| - 1].1)
  }

  function Cleared(st: P.State): P.State {
    st.(pending := map[])
  }

  /** The reader of the upstream stream says nothing about nodes. */
  lemma {:induction false} ReaderAnnouncesNobody(st: P.State, inbox: seq<(Message, bool)>)
    requires st.reader == P.Idle
    ensures P.Run(st, ReaderLoop(inbox)).reader == P.Idle && P.Run(st, ReaderLoop(inbox)).reg == st.reg
    ensures forall m :: m in P.Ups(Said(st, ReaderLoop(inbox))) ==> m.ErrorResponse?
    decreases |inbox|
  {
    if inbox != [] {
      var init, last := inbox[..|inbox| - 1], inbox[|inbox| - 1];
      ReaderAnnouncesNobody(st, init);
      var mid := P.Run(st, ReaderLoop(init));
      RunThen(st, ReaderLoop(init), ReaderEvents(last.0, last.1));
      ReaderTurn(mid, last.0, last.1);
      OnlyRefusals(mid.reg, mid.pending, last.0, last.1);
      P.SplitOutputs(Said(st, ReaderLoop(init)), ReaderSays(mid.reg, mid.pending, last.0, last.1));
    }
  }

  lemma OnlyRefusals(reg: R.Table, pending: map<RequestId, Host>, msg: Message, sendOk: bool)
    ensures forall m :: m in P.Ups(ReaderSays(reg, pending, msg, sendOk)) ==> m.ErrorResponse?
  {
  }

  /** What was added to the wire announces no node. */
  ghost predicate Quiet(before: seq<Message>, after: seq<Message>) {
    before <= after && forall m :: m in after[|before|..] ==> !m.RegisterRequest?
  }

  lemma QuietPlus(before: seq<Message>, more: seq<Message>)
    requires forall m :: m in more ==> !m.RegisterRequest?
    ensures Quiet(before, before + more) && Quiet(before, before + [])
  {
    assert (before + more)[|before|..] == more;
    assert before + [] == before && before[|before|..] == [];
  }

  lemma QuietThen(a: seq<Message>, b: seq<Message>, c: seq<Message>)
    requires Quiet(a, b) && Quiet(b, c)
    ensures Quiet(a, c)
  {
    assert c[|a|..] == b[|a|..] + c[|b|..];
  }

  /** One connection. The ack callback runs before the stream is published, so
      the re-registration it starts clears the pending map and tells nobody of
      any node; announcements come from the nodes' own heartbeats afterwards. */
  method RunOnce(d: Dialer, svc: DownstreamService, a: Attempt) returns (failed: bool)
    requires svc.upstream == d && svc.reg.Valid() && d.stream == None
    modifies d`stream, d`wire, svc`pendingRequests
    ensures d.stream == None
    ensures failed <==> !(a.dialed && a.ack == Some(false))
    ensures var es := if IsServed(a) then ReaderLoop(a.inbox) else [];
            var start := if IsServed(a) then Cleared(old(svc.View())) else old(svc.View());
            && svc.View() == P.Run(start, es)
            && d.wire == old(d.wire) + if d.healthy then P.Ups(Said(start, es)) else []
    ensures Quiet(old(d.wire), d.wire)
  {
    QuietPlus(d.wire, []);
    failed := true;
    if !a.dialed || a.ack == None {
      return;
    }
    if a.ack.value {
      svc.ReregisterAll();
    } else {
      failed := false;
      return;
    }
    d.stream := Some(a.s);
    ReaderAnnouncesNobody(svc.View(), a.inbox);
    QuietPlus(d.wire, P.Ups(Said(svc.View(), ReaderLoop(a.inbox))));
    ReadUntilError(d, svc, a.inbox);
    d.stream := None;
  }

  method ReadUntilError(d: Dialer, svc: DownstreamService, inbox: seq<(Message, bool)>)
    requires svc.upstream == d && svc.reg.Valid() && d.stream.Some?
    modifies d`wire, svc`pendingRequests
    ensures svc.View() == P.Run(old(svc.View()), ReaderLoop(inbox))
    ensures d.wire == old(d.wire) + if d.healthy then P.Ups(Said(old(svc.View()), ReaderLoop(inbox))) else []
  {
    ghost var st, start := svc.View(), d.wire;
    for k := 0 to |inbox|
      invariant svc.View() == P.Run(st, ReaderLoop(inbox[..k]))
      invariant d.wire == start + Heard(st, inbox[..k], d.healthy)
    {
      ReadTurn(st, inbox, k, d.healthy);
      ReadOne(d, svc, inbox[k].0, inbox[k].1);
    }
    assert inbox[..|inbox|] == inbox;
  }

  method ReadOne(d: Dialer, svc: DownstreamService, msg: Message, sendOk: bool)
    requires svc.upstream == d && svc.reg.Valid() && d.stream.Some?
    modifies d`wire, svc`pendingRequests
    ensures svc.View() == Turn(old(svc.View()), msg, sendOk)
    ensures d.wire == old(d.wire) + TurnUp(old(svc.View()), msg, sendOk, d.healthy)
  {
    OneTurn(svc.View(), msg, sendOk);
    var _ := svc.OnMessage(msg, sendOk);
  }

  function Turn(st: P.State, msg: Message, sendOk: bool): P.State {
    st.(pending := ReaderPending(st.reg, st.pending, msg, sendOk))
  }

  function TurnUp(st: P.State, msg: Message, sendOk: bool, healthy: bool): seq<Message> {
    if healthy && msg.ToolRequest? && msg.target !in st.reg then [P.Refusal(msg.requestId, msg.target)] else []
  }

  /** What the reader sends upstream over a stretch of messages. */
  function Heard(st: P.State, inbox: seq<(Message, bool)>, healthy: bool): seq<Message> {
    if healthy then P.Ups(Said(st, ReaderLoop(inbox))) else []
  }

  lemma ReadTurn(st: P.State, inbox: seq<(Message, bool)>, k: nat, healthy: bool)
    requires k < |inbox| && st.reader == P.Idle
    ensures var here := P.Run(st, ReaderLoop(inbox[..k]));
            && P.Run(st, ReaderLoop(inbox[..k + 1])) == Turn(here, inbox[k].0, inbox[k].1)
            && Heard(st, inbox[..k + 1], healthy) ==
              Heard(st, inbox[..k], healthy) + TurnUp(here, inbox[k].0, inbox[k].1, healthy)
  {
    assert inbox[..k + 1][..k] == inbox[..k];
    ReaderAnnouncesNobody(st, inbox[..k]);
    var here, es := P.Run(st, ReaderLoop(inbox[..k])), ReaderEvents(inbox[k].0, inbox[k].1);
    RunThen(st, ReaderLoop(inbox[..k]), es);
    P.SplitOutputs(Said(st, ReaderLoop(inbox[..k])), Said(here, es));
    OneTurn(here, inbox[k].0, inbox[k].1);
  }

  lemma OneTurn(st: P.State, msg: Message, sendOk: bool)
    requires st.reader == P.Idle
    ensures P.Run(st, ReaderEvents(msg, sendOk)) == Turn(st, msg, sendOk)
    ensures P.Ups(Said(st, ReaderEvents(msg, sendOk))) == TurnUp(st, msg, sendOk, true)
  {
    ReaderTurn(st, msg, sendOk);
  }

  // --- the waits between connections ---

  function Min(a: nat, b: nat): nat {
    if a <= b then a else b
  }

  /** The delay, in milliseconds and without jitter, before retry `k`. */
  function Delay(k: nat, maxDelay: nat): nat {
    if k == 0 then 200 else Min(Delay(k - 1, maxDelay) * 2, maxDelay)
  }

  function Pow2(k: nat): nat {
    if k == 0 then 1 else 2 * Pow2(k - 1)
  }

  /** Exponential backoff: the delay doubles from 200 ms and stays at its cap. */
  lemma {:induction false} DelayDoublesToTheCap(k: nat, maxDelay: nat)
    requires k > 0
    ensures Delay(k, maxDelay) == Min(200 * Pow2(k), maxDelay)
    ensures Delay(k, maxDelay) <= Delay(k + 1, maxDelay) <= maxDelay
  {
    if k > 1 {
      DelayDoublesToTheCap(k - 1, maxDelay);
    }
  }

  function Failures(attempts: seq<Attempt>): nat {
    if attempts == [] then 0
    else Failures(attempts[..|attempts| - 1]) +
         var a := attempts[|attempts| - 1]; if a.dialed && a.ack == Some(false) then 0 else 1
  }

  /** Wait `k` is the delay before retry `k` with less than 200 ms of jitter. */
  predicate BacksOff(waits: seq<nat>, maxDelay: nat) {
    forall k :: 0 <= k < |waits| ==> Delay(k, maxDelay) <= waits[k] < Delay(k, maxDelay) + 200
  }

  lemma BacksOffThen(waits: seq<nat>, maxDelay: nat, jitter: nat)
    requires BacksOff(waits, maxDelay) && jitter < 200
    ensures BacksOff(waits + [Delay(|waits|, maxDelay) + jitter], maxDelay)
    ensures Delay(|waits| + 1, maxDelay) == Min(Delay(|waits|, maxDelay) * 2, maxDelay)
  {
  }

  /** One connection of several, on a wire that has been quiet since `origin`. */
  method RunQuietly(d: Dialer, svc: DownstreamService, attempt: Attempt, ghost origin: seq<Message>)
    returns (failed: bool)
    requires svc.upstream == d && svc.reg.Valid() && d.stream == None && Quiet(origin, d.wire)
    modifies d`stream, d`wire, svc`pendingRequests
    ensures d.stream == None && Quiet(origin, d.wire)
    ensures failed <==> !(attempt.dialed && attempt.ack == Some(false))
  {
    ghost var before := d.wire;
    failed := RunOnce(d, svc, attempt);
    QuietThen(origin, before, d.wire);
  }

  /** The dialer's loop over a run of connections. A success never resets the
      delay; no connection leaves its stream behind or announces a node by itself. */
  method Run(d: Dialer, svc: DownstreamService, attempts: seq<Attempt>, jitter: seq<nat>, maxDelay: nat)
    returns (waits: seq<nat>)
    requires svc.upstream == d && svc.reg.Valid() && d.stream == None
    requires |jitter| == |attempts| && forall k :: 0 <= k < |jitter| ==> jitter[k] < 200
    modifies d`stream, d`wire, svc`pendingRequests
    ensures d.stream == None
    ensures |waits| == Failures(attempts)
    ensures BacksOff(waits, maxDelay)
    ensures Quiet(old(d.wire), d.wire)
  {
    var delay := 200;
    waits := [];
    for i := 0 to |attempts|
      invariant d.stream == None
      invariant |waits| == Failures(attempts[..i]) && delay == Delay(|waits|, maxDelay)
      invariant BacksOff(waits, maxDelay)
      invariant Quiet(old(d.wire), d.wire)
    {
      assert attempts[..i + 1][..i] == attempts[..i];
      var failed := RunQuietly(d, svc, attempts[i], old(d.wire));
      if failed {
        BacksOffThen(waits, maxDelay, jitter[i]);
        waits := waits + [delay + jitter[i]];
        delay := Min(delay * 2, maxDelay);
      }
    }
    assert attempts[..|attempts|] == attempts;
  }
}
