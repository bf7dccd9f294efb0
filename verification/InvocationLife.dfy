/** The life of invocations under every interleaving: each step is one lock
    section of the service, or something that happens to a running fan-out. */
module InvocationLife {
  import opened Tunnel
  import opened Invocations
  import opened Sorting

  type InvocationId = string
  type EventId = string

  datatype Invocation = Invocation(targets: seq<string>, async: bool, status: Status, startedAt: Option<int>,
    finishedAt: Option<int>)

  datatype Decision = Accepted | Final(status: Status)

  datatype Audit = Audit(invocation: InvocationId, decision: Decision, finishedAt: Option<int>)

  /** Where the goroutine that works on an invocation stands. */
  datatype Job =
    | Inserted
    | Audited
    | Launched
    | Executing(done: seq<Result>)
    | Summarized(results: seq<Result>, final: Status)
    | Stored(final: Status, at: int)
    | Closed(final: Status)

  /** What the service keeps under one invocation id in its maps, with the job
      that works on it and the state of the job's context. */
  datatype Cell = Cell(
    invocation: Invocation,
    results: Option<seq<Result>>,
    audit: Option<EventId>,
    cancelable: bool,
    job: Job,
    canceled: bool)

  datatype State = State(cells: map<InvocationId, Cell>, audits: map<EventId, Audit>)

  const EMPTY := State(map[], map[])

  datatype Event =
    | Insert(id: InvocationId, requested: seq<string>, async: bool)
    | RecordAudit(id: InvocationId, event: EventId)
    | Launch(id: InvocationId)
    | Begin(id: InvocationId, now: int)
    | TargetDone(id: InvocationId, node: string, outcome: Outcome)
    | ContextCanceled(id: InvocationId)
    | Summarize(id: InvocationId)
    | Finish(id: InvocationId, now: int)
    | FinishAudit(id: InvocationId)
    | Cancel(id: InvocationId)

  predicate HasResult(done: seq<Result>, node: string) {
    exists r :: r in done && r.nodeId == node
  }

  predicate AllDone(done: seq<Result>, targets: seq<string>) {
    forall t :: t in targets ==> HasResult(done, t)
  }

  function NewCell(requested: seq<string>, async: bool): Cell {
    Cell(Invocation(Deduped(requested), async, Pending, None, None), None, None, false, Inserted, false)
  }

  /** The next point of the job of `c`, if `ev` can happen there. */
  function Moved(c: Cell, ev: Event): Cell {
    match ev
    case Insert(_, _, _) => c
    case RecordAudit(_, event) => if c.job.Inserted? then c.(audit := Some(event), job := Audited) else c
    case Launch(_) => if c.job.Audited?
      then c.(cancelable := c.cancelable || c.invocation.async, job := Launched) else c
    case Begin(_, now) =>
      if c.job.Launched? then c.(invocation := c.invocation.(status := Running, startedAt := Some(now)),
        job := Executing([])) else c
    case TargetDone(_, node, outcome) =>
      if c.job.Executing? && node in c.invocation.targets && !HasResult(c.job.done, node)
      then c.(job := Executing(c.job.done + [ResultFor(node, outcome)])) else c
    case ContextCanceled(_) => c.(canceled := true)
    case Summarize(_) =>
      if c.job.Executing? && AllDone(c.job.done, c.invocation.targets) then
        var rs := SortById(c.job.done);
        c.(job := Summarized(rs, Summary(rs, c.canceled)))
      else c
    case Finish(_, now) =>
      if c.job.Summarized? then
        c.(invocation := c.invocation.(status := c.job.final, finishedAt := Some(now)),
           results := Some(c.job.results), job := Stored(c.job.final, now))
      else c
    case FinishAudit(_) => if c.job.Stored? then c.(cancelable := false, job := Closed(c.job.final)) else c
    case Cancel(_) => if !Terminal(c.invocation.status) && c.cancelable then c.(canceled := true) else c
  }

  /** What `ev` writes into the audit events, `c` being the cell it is about. */
  function AuditsAfter(audits: map<EventId, Audit>, c: Cell, ev: Event): map<EventId, Audit> {
    if ev.RecordAudit? && c.job.Inserted? then audits[ev.event := Audit(ev.id, Accepted, None)]
    else if ev.FinishAudit? && c.job.Stored? && c.audit.Some? && c.audit.value in audits then
      audits[c.audit.value := audits[c.audit.value].(decision := Final(c.job.final), finishedAt := Some(c.job.at))]
    else audits
  }

  function Apply(st: State, ev: Event): State {
    if ev.id !in st.cells then
      if ev.Insert? then st.(cells := st.cells[ev.id := NewCell(ev.requested, ev.async)]) else st
    else if ev.RecordAudit? && ev.event in st.audits then st
    else
      var c := st.cells[ev.id];
      State(st.cells[ev.id := Moved(c, ev)], AuditsAfter(st.audits, c, ev))
  }

  function Run(st: State, es: seq<Event>): State
    decreases |es|
  {
    if es == [] then st else Run(Apply(st, es[0]), es[1..])
  }

  lemma {:induction false} RunAppend(st: State, a: seq<Event>, b: seq<Event>)
    ensures Run(st, a + b) == Run(Run(st, a), b)
    decreases |a|
  {
    if a == [] {
      assert a + b == b;
    } else {
      assert (a + b)[0] == a[0] && (a + b)[1..] == a[1..] + b;
      RunAppend(Apply(st, a[0]), a[1..], b);
    }
  }

  lemma RunThen(st: State, es: seq<Event>, ev: Event)
    ensures Run(st, es + [ev]) == Apply(Run(st, es), ev)
  {
    RunAppend(st, es, [ev]);
    assert [ev][1..] == [];
    assert Run(Apply(Run(st, es), ev), []) == Apply(Run(st, es), ev);
  }

  // --- what holds at every point ---

  /** The results of a fan-out that is over: every target once, in order of node. */
  ghost predicate Complete(targets: seq<string>, rs: seq<Result>) {
    && StrictlyOrdered(rs)
    && (forall t :: t in targets <==> HasResult(rs, t))
  }

  predicate SummaryOf(rs: seq<Result>, final: Status) {
    final == Summary(rs, false) || final == Canceled
  }

  ghost predicate FromTargets(done: seq<Result>, targets: seq<string>) {
    forall r :: r in done ==> r.nodeId in targets && r == ResultFor(r.nodeId, r.outcome)
  }

  /** A finished invocation: complete results, and their summary as its status. */
  ghost predicate Settled(inv: Invocation, rs: Option<seq<Result>>, final: Status) {
    && inv.status == final && Terminal(final) && inv.startedAt.Some? && inv.finishedAt.Some?
    && rs.Some? && Complete(inv.targets, rs.value) && SummaryOf(rs.value, final)
  }

  predicate Underway(inv: Invocation, rs: Option<seq<Result>>) {
    inv.status == Running && inv.startedAt.Some? && inv.finishedAt.None? && rs.None?
  }

  /** The invocation and its stored results agree with the point its job has reached. */
  ghost predicate Fits(c: Cell) {
    var inv := c.invocation;
    && Distinct(inv.targets)
    && (c.audit.None? <==> c.job.Inserted?)
    && (c.cancelable <==> inv.async && (c.job.Launched? || c.job.Executing? || c.job.Summarized? || c.job.Stored?))
    && match c.job
       case Executing(done) => Underway(inv, c.results) && DistinctNodes(done) && FromTargets(done, inv.targets)
       case Summarized(results, final) =>
         Underway(inv, c.results) && Complete(inv.targets, results) && SummaryOf(results, final)
       case Stored(final, at) => Settled(inv, c.results, final) && inv.finishedAt == Some(at)
       case Closed(final) => Settled(inv, c.results, final)
       case _ => inv.status == Pending && inv.startedAt.None? && inv.finishedAt.None? && c.results.None?
  }

  /** The audit event of an invocation is its own, and says "accepted" until the
      job closes it with the final status. */
  predicate AuditFits(id: InvocationId, c: Cell, audits: map<EventId, Audit>) {
    c.audit.Some? ==>
      && c.audit.value in audits
      && var a := audits[c.audit.value];
      && a.invocation == id
      && a.decision == (if c.job.Closed? then Final(c.job.final) else Accepted)
      && a.finishedAt == (if c.job.Closed? then c.invocation.finishedAt else None)
  }

  ghost predicate Inv(st: State) {
    forall id :: id in st.cells ==> Fits(st.cells[id]) && AuditFits(id, st.cells[id], st.audits)
  }

  lemma SummarizeFits(targets: seq<string>, done: seq<Result>, canceled: bool)
    requires DistinctNodes(done) && FromTargets(done, targets) && AllDone(done, targets)
    ensures Complete(targets, SortById(done)) && SummaryOf(SortById(done), Summary(SortById(done), canceled))
  {
    SortBySorts(NodeOf, done);
    var rs := SortById(done);
    forall t ensures t in targets <==> HasResult(rs, t) {
      if t in targets {
        var r :| r in done && r.nodeId == t;
        assert r in rs;
      }
    }
  }

  lemma OneMoreFits(targets: seq<string>, done: seq<Result>, node: string, outcome: Outcome)
    requires DistinctNodes(done) && FromTargets(done, targets) && node in targets && !HasResult(done, node)
    ensures DistinctNodes(done + [ResultFor(node, outcome)]) && FromTargets(done + [ResultFor(node, outcome)], targets)
  {
    assert forall k :: 0 <= k < |done| ==> done[k] in done;
  }

  lemma MoveFits(c: Cell, ev: Event)
    requires Fits(c)
    ensures Fits(Moved(c, ev))
  {
    match ev
    case TargetDone(_, node, outcome) =>
      if c.job.Executing? && node in c.invocation.targets && !HasResult(c.job.done, node) {
        OneMoreFits(c.invocation.targets, c.job.done, node, outcome);
      }
    case Summarize(_) =>
      if c.job.Executing? && AllDone(c.job.done, c.invocation.targets) {
        SummarizeFits(c.invocation.targets, c.job.done, c.canceled);
      }
    case _ =>
  }

  lemma AuditsStay(id: InvocationId, c: Cell, other: Cell, audits: map<EventId, Audit>, ev: Event)
    requires id != ev.id && AuditFits(id, c, audits) && AuditFits(ev.id, other, audits)
    requires ev.RecordAudit? ==> ev.event !in audits
    ensures AuditFits(id, c, AuditsAfter(audits, other, ev))
  {
  }

  lemma StepKeeps(st: State, ev: Event)
    requires Inv(st)
    ensures Inv(Apply(st, ev))
  {
    var next := Apply(st, ev);
    forall id | id in next.cells ensures Fits(next.cells[id]) && AuditFits(id, next.cells[id], next.audits) {
      if ev.id !in st.cells {
        if ev.Insert? { DedupedIsExact(ev.requested); }
      } else if id != ev.id {
        if next != st { AuditsStay(id, st.cells[id], st.cells[ev.id], st.audits, ev); }
      } else {
        MoveFits(st.cells[id], ev);
      }
    }
  }

  lemma {:induction false} RunKeeps(st: State, es: seq<Event>)
    requires Inv(st)
    ensures Inv(Run(st, es))
    decreases |es|
  {
    if es != [] {
      StepKeeps(st, es[0]);
      RunKeeps(Apply(st, es[0]), es[1..]);
    }
  }

  /** In every reachable state terminal status, finishing time and stored results
      appear together, and the audit of an invocation says "accepted" until it
      says exactly the final status and the finishing time. */
  lemma FinishedTogether(es: seq<Event>, id: InvocationId)
    requires id in Run(EMPTY, es).cells
    ensures var st := Run(EMPTY, es);
            var c := st.cells[id];
            && (Terminal(c.invocation.status) <==> c.invocation.finishedAt.Some?)
            && (Terminal(c.invocation.status) <==> c.results.Some?)
            && (c.invocation.startedAt.None? <==> c.invocation.status == Pending)
            && (c.audit.Some? ==>
                  && c.audit.value in st.audits
                  && var a := st.audits[c.audit.value];
                  && a.invocation == id
                  && (a == Audit(id, Accepted, None)
                      || (a == Audit(id, Final(c.invocation.status), c.invocation.finishedAt)
                        && Terminal(c.invocation.status))))
  {
    RunKeeps(EMPTY, es);
  }

  /** Finished results name each target exactly once, in strictly increasing order,
      and unless the context was canceled their summary is the stored status. */
  lemma FinishedResultsAreComplete(es: seq<Event>, id: InvocationId)
    requires id in Run(EMPTY, es).cells && Run(EMPTY, es).cells[id].results.Some?
    ensures var c := Run(EMPTY, es).cells[id];
            && StrictlyOrdered(c.results.value)
            && (forall t :: t in c.invocation.targets <==> HasResult(c.results.value, t))
            && (c.invocation.status == Summary(c.results.value, false) || c.invocation.status == Canceled)
  {
    RunKeeps(EMPTY, es);
  }

  // --- how an invocation moves ---

  /** Pending, then running, then one terminal status for good. */
  predicate Forward(a: Cell, b: Cell) {
    var (p, q) := (a.invocation, b.invocation);
    && p.targets == q.targets && p.async == q.async
    && (Terminal(p.status) ==> q == p && b.results == a.results)
    && (p.status == Running ==> q.startedAt == p.startedAt && (q.status == Running || Terminal(q.status)))
    && (a.audit.Some? ==> b.audit == a.audit)
  }

  lemma MoveGoesForward(c: Cell, ev: Event)
    requires Fits(c)
    ensures Forward(c, Moved(c, ev))
    ensures c.invocation.status == Pending ==> Moved(c, ev).invocation.status in {Pending, Running}
  {
  }

  /** Along every run status only moves forward, and a terminal status, its times
      and its results never change again. */
  lemma {:induction false} Lifecycle(st: State, es: seq<Event>, id: InvocationId)
    requires Inv(st) && id in st.cells
    ensures id in Run(st, es).cells && Forward(st.cells[id], Run(st, es).cells[id])
    decreases |es|
  {
    if es != [] {
      StepKeeps(st, es[0]);
      MoveGoesForward(st.cells[id], es[0]);
      Lifecycle(Apply(st, es[0]), es[1..], id);
    }
  }

  /** No run finishes an invocation without passing through running: the step that
      leaves pending goes to running, whatever came before. */
  lemma PendingRunsFirst(es: seq<Event>, ev: Event, id: InvocationId)
    requires id in Run(EMPTY, es).cells && Run(EMPTY, es).cells[id].invocation.status == Pending
    ensures id in Run(EMPTY, es + [ev]).cells
    ensures Run(EMPTY, es + [ev]).cells[id].invocation.status in {Pending, Running}
  {
    RunKeeps(EMPTY, es);
    RunThen(EMPTY, es, ev);
    MoveGoesForward(Run(EMPTY, es).cells[id], ev);
  }

  /** What a cancel request does in a reachable state: it reaches the context of
      exactly the asynchronous invocations that are launched and not finished; a
      synchronous or finished one, its status and all others stay what they are. */
  lemma CancelReaches(st: State, id: InvocationId)
    requires Inv(st) && id in st.cells
    ensures var c, next := st.cells[id], Apply(st, Cancel(id));
            && next.audits == st.audits
            && next.cells == st.cells[id := c.(canceled :=
                 c.canceled || (c.invocation.async && (c.job.Launched? || c.job.Executing? || c.job.Summarized?)))]
  {
    assert Fits(st.cells[id]);
  }

  /** A context that is canceled before the results are summed up makes the
      invocation canceled, whatever its targets answered; canceled later it makes
      no difference. */
  lemma CancelDecidesUntilSummary(c: Cell, id: InvocationId, now: int)
    requires c.job.Executing? && AllDone(c.job.done, c.invocation.targets)
    ensures c.canceled ==> Moved(Moved(c, Summarize(id)), Finish(id, now)).invocation.status == Canceled
    ensures Moved(Moved(Moved(c, Summarize(id)), Cancel(id)), Finish(id, now)).invocation
         == Moved(Moved(c, Summarize(id)), Finish(id, now)).invocation
  {
  }

  // --- the order of completion does not show ---

  /** Two runs of the same fan-out whose targets end alike, in any two orders and
      with the same context, come to the same results and the same status. */
  lemma SameOutcomesSameSummary(a: Cell, b: Cell, id: InvocationId)
    requires Fits(a) && Fits(b) && a.job.Executing? && b.job.Executing?
    requires AllDone(a.job.done, a.invocation.targets) && AllDone(b.job.done, b.invocation.targets)
    requires a.invocation.targets == b.invocation.targets && a.canceled == b.canceled
    requires Agree(a.job.done, b.job.done)
    ensures Moved(a, Summarize(id)).job == Moved(b, Summarize(id)).job
  {
    AgreeingOnTargets(a.invocation.targets, a.job.done, b.job.done);
    AgreeingOnTargets(a.invocation.targets, b.job.done, a.job.done);
    SortBySorts(NodeOf, a.job.done);
    SortBySorts(NodeOf, b.job.done);
    StrictIsUnique(NodeOf, SortById(a.job.done), SortById(b.job.done));
  }

  /** The same node has the same result on both sides. */
  predicate Agree(a: seq<Result>, b: seq<Result>) {
    forall r, q :: r in a && q in b && r.nodeId == q.nodeId ==> r == q
  }

  lemma AgreeingOnTargets(targets: seq<string>, a: seq<Result>, b: seq<Result>)
    requires FromTargets(a, targets) && AllDone(b, targets) && (Agree(a, b) || Agree(b, a))
    ensures forall r :: r in a ==> r in b
  {
    forall r | r in a ensures r in b {
      var q :| q in b && q.nodeId == r.nodeId;
    }
  }
}
