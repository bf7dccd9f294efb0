/** Invocations at center: the life of one invocation through its lock sections,
    the fan-out to its targets, and the summary of what came back. */
module Invocations {
  import opened Tunnel
  import opened Text
  import opened Sorting
  import opened Seqs

  datatype Status = Pending | Running | Succeeded | Failed | Canceled | Partial

  predicate Terminal(s: Status) {
    s.Succeeded? || s.Failed? || s.Canceled? || s.Partial?
  }

  // --- targets ---

  /** Trimmed, without empty names, each name where it first occurs. */
  function Deduped(values: seq<string>): seq<string>
    decreases |values|
  {
    if values == [] then []
    else
      var init, v := Deduped(values[..|values| - 1]), Trim(values[|values| - 1]);
      if v == "" || v in init then init else init + [v]
  }

  predicate Distinct<T(==)>(s: seq<T>) {
    forall i, j :: 0 <= i < j < |s| ==> s[i] != s[j]
  }

  /** `v` is one of the values once they are trimmed. */
  predicate Occurs(values: seq<string>, v: string) {
    exists i :: 0 <= i < |values| && Trim(values[i]) == v
  }

  lemma OccursSnoc(values: seq<string>, v: string)
    requires values != []
    ensures Occurs(values, v) <==> Occurs(values[..|values| - 1], v) || Trim(values[|values| - 1]) == v
  {
    var init := values[..|values| - 1];
    assert forall i :: 0 <= i < |init| ==> init[i] == values[i];
  }

  /** Exactly the non-empty trimmed names, none twice. */
  lemma {:induction false} DedupedIsExact(values: seq<string>)
    ensures Distinct(Deduped(values))
    ensures forall v :: v in Deduped(values) <==> v != "" && Occurs(values, v)
    decreases |values|
  {
    if values != [] {
      DedupedIsExact(values[..|values| - 1]);
      forall v ensures v in Deduped(values) <==> v != "" && Occurs(values, v) {
        OccursSnoc(values, v);
      }
    }
  }

  /** Names keep the order in which they first occur. */
  lemma {:induction false} DedupedKeepsOrder(values: seq<string>, n: nat)
    requires n <= |values|
    ensures Deduped(values[..n]) <= Deduped(values)
    decreases |values|
  {
    if n < |values| {
      var init := values[..|values| - 1];
      DedupedKeepsOrder(init, n);
      assert init[..n] == values[..n];
    } else {
      assert values[..n] == values;
    }
  }

  method Dedupe(values: seq<string>) returns (out: seq<string>)
    ensures out == Deduped(values)
  {
    var seen: set<string> := {};
    out := [];
    for k := 0 to |values|
      invariant out == Deduped(values[..k])
      invariant forall v :: v in seen <==> v in out
    {
      assert values[..k + 1][..k] == values[..k];
      var value := Trim(values[k]);
      if value == "" || value in seen {
        continue;
      }
      seen := seen + {value};
      out := out + [value];
    }
    assert values[..|values|] == values;
  }

  // --- results of the targets ---

  /** What executing one target came to. */
  datatype Outcome = Done(data: string) | Error(code: string, message: string)

  datatype Result = Result(nodeId: string, status: Status, outcome: Outcome)

  function StatusFromErrorCode(code: string): Status {
    if code == "CANCELED" then Canceled else Failed
  }

  function ResultFor(nodeId: string, o: Outcome): Result {
    Result(nodeId, if o.Done? then Succeeded else StatusFromErrorCode(o.code), o)
  }

  predicate IsCanceled(o: Outcome) {
    o.Error? && o.code == "CANCELED"
  }

  /** One target: done and it has succeeded with that data; an error, and it has
      failed with that error, or was canceled. */
  method ExecuteTarget(nodeId: string, o: Outcome) returns (r: Result)
    ensures r.nodeId == nodeId && r.outcome == o
    ensures r.status == Succeeded <==> o.Done?
    ensures r.status == Canceled <==> IsCanceled(o)
    ensures r.status == Failed <==> o.Error? && !IsCanceled(o)
    ensures r == ResultFor(nodeId, o)
  {
    var status := Failed;
    if o.Error? {
      status := StatusFromErrorCode(o.code);
      return Result(nodeId, status, o);
    }
    status := Succeeded;
    r := Result(nodeId, status, o);
  }

  /** The results in the order in which the targets complete. */
  function Collected(order: seq<string>, outcomes: map<string, Outcome>): seq<Result>
    requires forall t :: t in order ==> t in outcomes
  {
    seq(|order|, i requires 0 <= i < |order| => ResultFor(order[i], outcomes[order[i]]))
  }

  function NodeOf(r: Result): string {
    r.nodeId
  }

  predicate DistinctNodes(rs: seq<Result>) {
    DistinctKeys(NodeOf, rs)
  }

  predicate StrictlyOrdered(rs: seq<Result>) {
    Strict(NodeOf, rs)
  }

  function SortById(rs: seq<Result>): seq<Result> {
    SortBy(NodeOf, rs)
  }

  // --- the summary ---

  predicate AllAre(rs: seq<Result>, s: Status) {
    forall r :: r in rs ==> r.status == s
  }

  predicate SomeIs(rs: seq<Result>, s: Status) {
    exists r :: r in rs && r.status == s
  }

  /** The status of an invocation from the statuses of its targets. */
  function Summary(rs: seq<Result>, ctxCanceled: bool): Status {
    if ctxCanceled || (rs != [] && AllAre(rs, Canceled)) then Canceled
    else if rs != [] && AllAre(rs, Succeeded) then Succeeded
    else if !SomeIs(rs, Succeeded) then Failed
    else Partial
  }

  lemma SummaryIgnoresOrder(a: seq<Result>, b: seq<Result>, ctxCanceled: bool)
    requires multiset(a) == multiset(b)
    ensures Summary(a, ctxCanceled) == Summary(b, ctxCanceled)
  {
    assert forall r :: r in a <==> r in multiset(a);
    assert forall r :: r in b <==> r in multiset(b);
    assert |a| == |multiset(a)| == |multiset(b)| == |b|;
  }

  method SummarizeInvocationStatus(results: seq<Result>, ctxCanceled: bool) returns (status: Status)
    ensures status == Summary(results, ctxCanceled)
    ensures Terminal(status)
  {
    if ctxCanceled {
      return Canceled;
    }
    var success, canceled := 0, 0;
    for k := 0 to |results|
      invariant 0 <= success && 0 <= canceled && success + canceled <= k
      invariant success == k <==> forall i :: 0 <= i < k ==> results[i].status == Succeeded
      invariant canceled == k <==> forall i :: 0 <= i < k ==> results[i].status == Canceled
      invariant success == 0 <==> forall i :: 0 <= i < k ==> results[i].status != Succeeded
    {
      match results[k].status {
        case Succeeded => success := success + 1;
        case Canceled => canceled := canceled + 1;
        case _ =>
      }
    }
    assert forall i :: 0 <= i < |results| ==> results[i] in results;
    if canceled == |results| && |results| > 0 {
      status := Canceled;
    } else if success == |results| && |results| > 0 {
      status := Succeeded;
    } else if success == 0 {
      status := Failed;
    } else {
      status := Partial;
    }
  }

  // --- fan-out: the completion order does not show ---

  lemma CollectedIsDistinct(order: seq<string>, outcomes: map<string, Outcome>)
    requires Distinct(order) && forall t :: t in order ==> t in outcomes
    ensures DistinctNodes(Collected(order, outcomes))
  {
  }

  lemma CollectedSplits(b: seq<string>, i: nat, outcomes: map<string, Outcome>)
    requires i < |b| && forall t :: t in b ==> t in outcomes
    ensures forall t :: t in b[..i] + b[i + 1..] ==> t in outcomes
    ensures multiset(Collected(b, outcomes))
            == multiset(Collected(b[..i] + b[i + 1..], outcomes)) + multiset{ResultFor(b[i], outcomes[b[i]])}
  {
    var rs, rest := Collected(b, outcomes), b[..i] + b[i + 1..];
    forall t | t in rest ensures t in outcomes { assert t in b; }
    assert Collected(rest, outcomes) == rs[..i] + rs[i + 1..];
    assert rs == rs[..i] + [rs[i]] + rs[i + 1..];
  }

  lemma {:induction false} CollectedPermutes(a: seq<string>, b: seq<string>, outcomes: map<string, Outcome>)
    requires multiset(a) == multiset(b) && forall t :: t in a ==> t in outcomes
    ensures forall t :: t in b ==> t in outcomes
    ensures multiset(Collected(a, outcomes)) == multiset(Collected(b, outcomes))
    decreases |a|
  {
    forall t | t in b ensures t in outcomes { assert t in multiset(b) && t in a; }
    assert |a| == |multiset(a)| == |multiset(b)| == |b|;
    if a != [] {
      var i := HeadInOther(a, b);
      assert a[..0] + a[1..] == a[1..];
      CollectedSplits(a, 0, outcomes);
      CollectedSplits(b, i, outcomes);
      CollectedPermutes(a[1..], b[..i] + b[i + 1..], outcomes);
    }
  }

  lemma HeadInOther(a: seq<string>, b: seq<string>) returns (i: nat)
    requires a != [] && multiset(a) == multiset(b)
    ensures i < |b| && b[i] == a[0] && multiset(b[..i] + b[i + 1..]) == multiset(a[1..])
  {
    SameMembers(a, b);
    i := IndexIn(b, a[0]);
    RemoveAt(b, i);
    TailMultiset(a);
  }

  lemma CollectedMembers(targets: seq<string>, outcomes: map<string, Outcome>, r: Result)
    requires forall t :: t in targets ==> t in outcomes
    ensures r in Collected(targets, outcomes) <==> r.nodeId in targets && r == ResultFor(r.nodeId, outcomes[r.nodeId])
  {
    var rs := Collected(targets, outcomes);
    if r.nodeId in targets && r == ResultFor(r.nodeId, outcomes[r.nodeId]) {
      var k :| 0 <= k < |targets| && targets[k] == r.nodeId;
      assert rs[k] == r;
    }
  }

  /** One order of completion: the sorted results are those of the targets. */
  lemma SortedIsCanonical(targets: seq<string>, order: seq<string>, outcomes: map<string, Outcome>)
    requires Distinct(targets) && multiset(order) == multiset(targets) && forall t :: t in targets ==> t in outcomes
    ensures forall t :: t in order ==> t in outcomes
    ensures var rs := SortById(Collected(order, outcomes));
            && rs == SortById(Collected(targets, outcomes)) && StrictlyOrdered(rs)
            && multiset(rs) == multiset(Collected(targets, outcomes))
  {
    CollectedPermutes(targets, order, outcomes);
    CollectedIsDistinct(targets, outcomes);
    var ct, co := Collected(targets, outcomes), Collected(order, outcomes);
    DistinctInOrder(NodeOf, ct, co);
    SortBySorts(NodeOf, ct);
    SortBySorts(NodeOf, co);
    SameMembers(co, ct);
    StrictIsUnique(NodeOf, SortById(co), SortById(ct));
  }

  /** For fixed outcomes, every order in which the targets may complete gives the
      same result list, strictly ordered by node and with one entry for each
      target, and the same summary. */
  lemma FanOutIsOrderIndependent(targets: seq<string>, a: seq<string>, b: seq<string>, outcomes: map<string, Outcome>,
      ctxCanceled: bool)
    requires Distinct(targets) && multiset(a) == multiset(targets) == multiset(b)
    requires forall t :: t in targets ==> t in outcomes
    ensures (forall t :: t in a ==> t in outcomes) && (forall t :: t in b ==> t in outcomes)
    ensures SortById(Collected(a, outcomes)) == SortById(Collected(b, outcomes))
    ensures Summary(SortById(Collected(a, outcomes)), ctxCanceled) == Summary(Collected(targets, outcomes), ctxCanceled)
    ensures var rs := SortById(Collected(a, outcomes));
            && StrictlyOrdered(rs) && |rs| == |targets|
            && forall r :: r in rs <==> r.nodeId in targets && r == ResultFor(r.nodeId, outcomes[r.nodeId])
  {
    SortedIsCanonical(targets, a, outcomes);
    SortedIsCanonical(targets, b, outcomes);
    var ct, rs := Collected(targets, outcomes), SortById(Collected(a, outcomes));
    SummaryIgnoresOrder(rs, ct, ctxCanceled);
    SameMembers(rs, ct);
    assert |multiset(rs)| == |multiset(ct)|;
    forall r ensures r in rs <==> r.nodeId in targets && r == ResultFor(r.nodeId, outcomes[r.nodeId]) {
      CollectedMembers(targets, outcomes, r);
    }
  }

  // --- what the outcomes say ---

  /** One result for each target and no other, with what the target came to. */
  predicate Reports(rs: seq<Result>, targets: seq<string>, outcomes: map<string, Outcome>) {
    && |rs| == |targets|
    && (forall r :: r in rs ==>
          && r.nodeId in targets && r.nodeId in outcomes && r.outcome == outcomes[r.nodeId]
          && (r.status == Succeeded <==> r.outcome.Done?)
          && (r.status == Canceled <==> IsCanceled(r.outcome))
          && (r.status == Failed <==> r.outcome.Error? && !IsCanceled(r.outcome)))
    && (forall t :: t in targets ==> exists r :: r in rs && r.nodeId == t)
  }

  predicate EachDone(targets: seq<string>, outcomes: map<string, Outcome>) {
    forall t :: t in targets ==> t in outcomes && outcomes[t].Done?
  }

  predicate EachCanceled(targets: seq<string>, outcomes: map<string, Outcome>) {
    forall t :: t in targets ==> t in outcomes && IsCanceled(outcomes[t])
  }

  predicate SomeDone(targets: seq<string>, outcomes: map<string, Outcome>) {
    exists t :: t in targets && t in outcomes && outcomes[t].Done?
  }

  /** The status of an invocation from what its targets came to. */
  predicate Sums(final: Status, targets: seq<string>, outcomes: map<string, Outcome>, ctxCanceled: bool) {
    if ctxCanceled then final == Canceled
    else
      && (final == Succeeded <==> targets != [] && EachDone(targets, outcomes))
      && (final == Canceled <==> targets != [] && EachCanceled(targets, outcomes))
      && (final == Partial <==> SomeDone(targets, outcomes) && !EachDone(targets, outcomes))
      && (final == Failed <==> !SomeDone(targets, outcomes) && (targets == [] || !EachCanceled(targets, outcomes)))
  }

  /** The results of a fan-out report its outcomes, and their summary sums them up. */
  lemma OutcomesDecide(targets: seq<string>, outcomes: map<string, Outcome>, ctxCanceled: bool)
    requires Distinct(targets) && forall t :: t in targets ==> t in outcomes
    ensures var rs := SortById(Collected(targets, outcomes));
            Reports(rs, targets, outcomes) && Sums(Summary(rs, ctxCanceled), targets, outcomes, ctxCanceled)
  {
    var rs := SortById(Collected(targets, outcomes));
    FanOutIsOrderIndependent(targets, targets, targets, outcomes, ctxCanceled);
    forall t | t in targets ensures ResultFor(t, outcomes[t]) in rs { }
    assert rs != [] ==> rs[0] in rs;
    assert targets != [] ==> targets[0] in targets;
  }
}
