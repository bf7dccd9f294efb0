/** The ids under which requests travel: which of them can coincide. */
module RequestIds {
  import opened Tunnel
  import opened Invocations
  import RouterMachine

  predicate IsDigit(c: char) {
    '0' <= c <= '9'
  }

  /** A natural number in decimal. */
  function Digits(n: nat): (s: string)
    ensures s != "" && forall i :: 0 <= i < |s| ==> IsDigit(s[i])
  {
    if n < 10 then [('0' as int + n) as char] else Digits(n / 10) + [('0' as int + n % 10) as char]
  }

  /** The number that a string of digits denotes. */
  function Number(s: string): int {
    if s == "" then 0 else 10 * Number(s[..|s| - 1]) + (s[|s| - 1] as int - '0' as int)
  }

  lemma {:induction false} DigitsDenote(n: nat)
    ensures Number(Digits(n)) == n
  {
    if n >= 10 {
      DigitsDenote(n / 10);
      assert Digits(n)[..|Digits(n)| - 1] == Digits(n / 10);
    }
  }

  lemma DigitsDiffer(a: nat, b: nat)
    requires Digits(a) == Digits(b)
    ensures a == b
  {
    DigitsDenote(a);
    DigitsDenote(b);
  }

  /** Empty, or starting with something that is no digit. */
  predicate Stops(s: string) {
    s == "" || !IsDigit(s[0])
  }

  predicate AllDigits(s: string) {
    forall i :: 0 <= i < |s| ==> IsDigit(s[i])
  }

  lemma NotShorter(p: string, x: string, q: string, y: string)
    requires AllDigits(q) && Stops(x) && p + x == q + y
    ensures |q| <= |p|
  {
    assert forall i :: 0 <= i < |q| ==> (q + y)[i] == q[i];
    assert x != "" ==> (p + x)[|p|] == x[0];
  }

  lemma DigitsThenRest(a: nat, x: string, b: nat, y: string)
    requires Stops(x) && Stops(y) && Digits(a) + x == Digits(b) + y
    ensures a == b && x == y
  {
    var s, p, q := Digits(a) + x, Digits(a), Digits(b);
    NotShorter(p, x, q, y);
    NotShorter(q, y, p, x);
    assert p == s[..|p|] && q == s[..|q|] && x == s[|p|..] && y == s[|q|..];
    DigitsDiffer(a, b);
  }

  lemma DashNotLater(x: string, p: string, y: string, q: string)
    requires AllDigits(q) && x + "-" + p == y + "-" + q
    ensures |x| <= |y|
  {
    var s := x + "-" + p;
    assert s[|x|] == '-' && |s| == |y| + 1 + |q|;
    assert forall i :: |y| < i < |s| ==> s[i] == q[i - |y| - 1];
  }

  lemma DashThenDigits(x: string, a: nat, y: string, b: nat)
    requires x + "-" + Digits(a) == y + "-" + Digits(b)
    ensures a == b && x == y
  {
    var s := x + "-" + Digits(a);
    DashNotLater(x, Digits(a), y, Digits(b));
    DashNotLater(y, Digits(b), x, Digits(a));
    assert x == s[..|x|] && y == s[..|y|] && Digits(a) == s[|x| + 1..] && Digits(b) == s[|y| + 1..];
    DigitsDiffer(a, b);
  }

  /** A minted id: its prefix, the time as text, and the count of the process-wide counter. */
  function NewRequestId(prefix: string, time: string, count: nat): RequestId {
    prefix + "-" + time + "-" + Digits(count)
  }

  /** The counter never repeats, so neither does a minted id: whatever the
      prefixes and the clock, equal ids come from the same count. */
  lemma MintedIdsDiffer(p: string, s: string, n: nat, q: string, t: string, m: nat)
    ensures NewRequestId(p, s, n) == NewRequestId(q, t, m) ==> n == m && p + "-" + s == q + "-" + t
  {
    if NewRequestId(p, s, n) == NewRequestId(q, t, m) {
      DashThenDigits(p + "-" + s, n, q + "-" + t, m);
    }
  }

  // --- the ids of the calls that invocations make ---

  datatype Kind = Builtin | CommandTemplate

  /** An invocation, by the time and the count that are in its id. */
  datatype Minted = Minted(kind: Kind, time: nat, count: nat)
  {
    function Id(): RequestId {
      NewRequestId("inv", Digits(time), count)
    }
  }

  /** The id under which the call to one target travels. */
  function TargetId(inv: Minted, node: string): RequestId {
    match inv.kind
    case Builtin => inv.Id()
    case CommandTemplate => inv.Id() + "-" + node
  }

  function Tail(inv: Minted, node: string): string {
    if inv.kind.Builtin? then "" else "-" + node
  }

  lemma TargetIdParts(inv: Minted, node: string)
    ensures TargetId(inv, node) == "inv-" + (Digits(inv.time) + ("-" + (Digits(inv.count) + Tail(inv, node))))
  {
    assert inv.Id() == "inv-" + (Digits(inv.time) + ("-" + Digits(inv.count)));
  }

  /** Over all calls of all invocations, two travel under one id exactly when they
      belong to one invocation and either go to the same node or the action is a
      built-in one. */
  lemma SameTargetIdIff(a: Minted, m: string, b: Minted, n: string)
    requires a.count == b.count ==> a == b
    ensures TargetId(a, m) == TargetId(b, n) <==> a == b && (m == n || a.kind.Builtin?)
  {
    TargetIdParts(a, m);
    TargetIdParts(b, n);
    if TargetId(a, m) == TargetId(b, n) {
      var x, y := Digits(a.count) + Tail(a, m), Digits(b.count) + Tail(b, n);
      assert (Digits(a.time) + ("-" + x)) == TargetId(a, m)[4..] == TargetId(b, n)[4..] == (Digits(b.time) + ("-" + y));
      DigitsThenRest(a.time, "-" + x, b.time, "-" + y);
      assert x == ("-" + x)[1..] == ("-" + y)[1..] == y;
      DigitsThenRest(a.count, Tail(a, m), b.count, Tail(b, n));
      if a.kind.CommandTemplate? {
        assert m == Tail(a, m)[1..] == Tail(b, n)[1..] == n;
      }
    }
  }

  /** The calls of one invocation travel under pairwise different ids exactly when
      it is a template's or has at most one target. */
  lemma FanOutIdsDifferIff(inv: Minted, targets: seq<string>)
    requires Distinct(targets)
    ensures (forall i, j :: 0 <= i < j < |targets| ==> TargetId(inv, targets[i]) != TargetId(inv, targets[j]))
      <==> inv.kind.CommandTemplate? || |targets| <= 1
  {
    forall i, j | 0 <= i < j < |targets| ensures TargetId(inv, targets[i]) == TargetId(inv, targets[j]) <==>
      inv.kind.Builtin? {
      SameTargetIdIff(inv, targets[i], inv, targets[j]);
    }
    if |targets| > 1 {
      assert TargetId(inv, targets[0]) == TargetId(inv, targets[1]) <==> inv.kind.Builtin?;
    }
  }

  /** What the shared id of a built-in action on two nodes comes to: there is an
      interleaving in which the answer of whichever node replies first goes to the
      call to the second node, and the call to the first keeps waiting. */
  lemma BuiltinFanOutCrosses(inv: Minted, m: string, n: string, tool: string, args: string, toM: StreamId,
      toN: StreamId, reply: Message)
    requires inv.kind.Builtin? && reply.IsReply() && reply.requestId == inv.Id()
    ensures exists es ::
      && Crossed(es, reply)
      && RouterMachine.Start(0, TargetId(inv, m), m, tool, args, toM) in es
      && RouterMachine.Start(1, TargetId(inv, n), n, tool, args, toN) in es
  {
    var s, t := RouterMachine.Start(0, inv.Id(), m, tool, args, toM),
      RouterMachine.Start(1, inv.Id(), n, tool, args, toN);
    var rest := CrossingEvents(reply);
    var st := RouterMachine.Apply(RouterMachine.Apply(RouterMachine.EMPTY, s), t);
    RouterMachine.RunTwo(RouterMachine.EMPTY, s, t, rest);
    RouterMachine.SharedIdCrossesAnswers(st, 0, 1, reply);
    var es := [s, t] + rest;
    assert es[0] == s && es[1] == t;
    assert Crossed(es, reply);
  }

  function CrossingEvents(reply: Message): seq<RouterMachine.Event> {
    [RouterMachine.Open(0), RouterMachine.Open(1)]
    + ([RouterMachine.Transmit(0, true), RouterMachine.Transmit(1, true)]
      + [RouterMachine.Deliver(reply), RouterMachine.Take(1)])
  }

  /** After `es` the second call has the reply and the first waits with an empty slot. */
  ghost predicate Crossed(es: seq<RouterMachine.Event>, reply: Message)
    requires reply.IsReply()
  {
    var end := RouterMachine.Run(RouterMachine.EMPTY, es);
    && RouterMachine.In(end, 1, RouterMachine.Decided(RouterMachine.OutcomeOf(reply)))
    && RouterMachine.In(end, 0, RouterMachine.Waiting) && end.calls[0].slot == None
  }
}
