/** The invocation half of the admin service at center, as it keeps its maps:
    every method that takes the lock is one step of the machine in
    InvocationLife. */
module InvocationService {
  import opened Tunnel
  import opened Invocations
  import opened InvocationLife
  import opened Sorting

  class InvocationRecord {
    const id: InvocationId
    const targets: seq<string>
    const async: bool
    var status: Status
    var startedAt: Option<int>
    var finishedAt: Option<int>

    constructor (id: InvocationId, targets: seq<string>, async: bool)
      ensures this.id == id && View() == Invocation(targets, async, Pending, None, None)
    {
      this.id, this.targets, this.async := id, targets, async;
      status, startedAt, finishedAt := Pending, None, None;
    }

    function View(): Invocation
      reads this
    {
      Invocation(targets, async, status, startedAt, finishedAt)
    }

    method Start(now: int)
      modifies this
      ensures View() == old(View()).(status := Running, startedAt := Some(now))
    {
      status, startedAt := Running, Some(now);
    }

    method Finish(final: Status, started: int, now: int)
      modifies this
      ensures View() == old(View()).(status := final, finishedAt := Some(now),
        startedAt := if old(startedAt).Some? then old(startedAt) else Some(started))
    {
      status := final;
      if startedAt == None {
        startedAt := Some(started);
      }
      finishedAt := Some(now);
    }
  }

  class AuditRecord {
    const id: EventId
    const invocation: InvocationId
    var decision: Decision
    var finishedAt: Option<int>

    constructor (id: EventId, invocation: InvocationId)
      ensures this.id == id && View() == Audit(invocation, Accepted, None)
    {
      this.id, this.invocation := id, invocation;
      decision, finishedAt := Accepted, None;
    }

    function View(): Audit
      reads this
    {
      Audit(invocation, decision, finishedAt)
    }
  }

  /** The five maps of the service. */
  datatype Maps = Maps(
    invocations: map<InvocationId, Invocation>,
    results: map<InvocationId, Option<seq<Result>>>,
    audits: map<EventId, Audit>,
    auditByInvoke: map<InvocationId, EventId>,
    cancelFns: set<InvocationId>)

  /** What the maps hold when the machine is in `st`. */
  function MapsOf(st: State): Maps {
    Maps(map id | id in st.cells :: st.cells[id].invocation,
         map id | id in st.cells :: st.cells[id].results,
         st.audits,
         map id | id in st.cells && st.cells[id].audit.Some? :: st.cells[id].audit.value,
         set id | id in st.cells && st.cells[id].cancelable)
  }

  lemma MapsAt(st: State, id: InvocationId, c: Cell, audits: map<EventId, Audit>)
    requires id in st.cells && (st.cells[id].audit.Some? ==> c.audit.Some?)
    ensures MapsOf(State(st.cells[id := c], audits)) ==
      Maps(MapsOf(st).invocations[id := c.invocation], MapsOf(st).results[id := c.results], audits,
           if c.audit.Some? then MapsOf(st).auditByInvoke[id := c.audit.value] else MapsOf(st).auditByInvoke,
           if c.cancelable then MapsOf(st).cancelFns + {id} else MapsOf(st).cancelFns - {id})
  {
  }

  // --- what each step changes in the maps ---

  lemma AuditMaps(st: State, id: InvocationId, event: EventId)
    requires id in st.cells && st.cells[id].job.Inserted? && !st.cells[id].cancelable && event !in st.audits
    ensures MapsOf(Apply(st, RecordAudit(id, event))) ==
      MapsOf(st).(audits := st.audits[event := Audit(id, Accepted, None)],
        auditByInvoke := MapsOf(st).auditByInvoke[id := event])
  {
    var m, d := MapsOf(st), Moved(st.cells[id], RecordAudit(id, event));
    MapsAt(st, id, d, AuditsAfter(st.audits, st.cells[id], RecordAudit(id, event)));
    assert m.invocations[id := m.invocations[id]] == m.invocations && m.results[id := m.results[id]] == m.results;
  }

  lemma LaunchMaps(st: State, id: InvocationId)
    requires id in st.cells && st.cells[id].job.Audited?
    ensures MapsOf(Apply(st, Event.Launch(id))) ==
      MapsOf(st).(cancelFns := if st.cells[id].invocation.async
        then MapsOf(st).cancelFns + {id} else MapsOf(st).cancelFns)
  {
    var m, d := MapsOf(st), Moved(st.cells[id], Event.Launch(id));
    MapsAt(st, id, d, AuditsAfter(st.audits, st.cells[id], Event.Launch(id)));
    assert m.invocations[id := m.invocations[id]] == m.invocations && m.results[id := m.results[id]] == m.results;
  }

  lemma BeginMaps(st: State, id: InvocationId, now: int)
    requires id in st.cells && st.cells[id].job.Launched?
    ensures MapsOf(Apply(st, Event.Begin(id, now))) ==
      MapsOf(st).(invocations :=
        MapsOf(st).invocations[id := MapsOf(st).invocations[id].(status := Running, startedAt := Some(now))])
  {
    var m, d := MapsOf(st), Moved(st.cells[id], Event.Begin(id, now));
    MapsAt(st, id, d, AuditsAfter(st.audits, st.cells[id], Event.Begin(id, now)));
    assert m.invocations[id := m.invocations[id]] == m.invocations && m.results[id := m.results[id]] == m.results;
  }

  lemma FinishMaps(st: State, id: InvocationId, now: int)
    requires id in st.cells && st.cells[id].job.Summarized?
    ensures MapsOf(Apply(st, Finish(id, now))) ==
      MapsOf(st).(invocations :=
        MapsOf(st).invocations[id :=
          MapsOf(st).invocations[id].(status := st.cells[id].job.final, finishedAt := Some(now))],
                results := MapsOf(st).results[id := Some(st.cells[id].job.results)])
  {
    var m, d := MapsOf(st), Moved(st.cells[id], Finish(id, now));
    MapsAt(st, id, d, AuditsAfter(st.audits, st.cells[id], Finish(id, now)));
    assert m.invocations[id := m.invocations[id]] == m.invocations && m.results[id := m.results[id]] == m.results;
  }

  lemma CloseMaps(st: State, id: InvocationId)
    requires id in st.cells && st.cells[id].job.Stored?
    ensures MapsOf(Apply(st, FinishAudit(id))) ==
      MapsOf(st).(audits := AuditsAfter(st.audits, st.cells[id], FinishAudit(id)),
        cancelFns := MapsOf(st).cancelFns - {id})
  {
    var m, d := MapsOf(st), Moved(st.cells[id], FinishAudit(id));
    MapsAt(st, id, d, AuditsAfter(st.audits, st.cells[id], FinishAudit(id)));
    assert m.invocations[id := m.invocations[id]] == m.invocations && m.results[id := m.results[id]] == m.results;
  }

  lemma CancelMaps(st: State, id: InvocationId)
    requires id in st.cells
    ensures MapsOf(Apply(st, Cancel(id))) == MapsOf(st)
    ensures Apply(st, Cancel(id)) ==
      if st.cells[id].cancelable && !Terminal(st.cells[id].invocation.status)
      then State(st.cells[id := st.cells[id].(canceled := true)], st.audits) else st
  {
    var c := st.cells[id];
    MapsAt(st, id, Moved(c, Cancel(id)), st.audits);
    assert st.cells[id := c] == st.cells;
  }

  lemma InsertMaps(st: State, id: InvocationId, requested: seq<string>, async: bool)
    requires id !in st.cells
    ensures MapsOf(Apply(st, Event.Insert(id, requested, async))) ==
      MapsOf(st).(invocations :=
        MapsOf(st).invocations[id := Invocation(Deduped(requested), async, Pending, None, None)],
                  results := MapsOf(st).results[id := None])
  {
  }

  /** Between its lock sections a goroutine changes nothing in the maps. */
  lemma QuietMaps(st: State, ev: Event)
    requires ev.TargetDone? || ev.ContextCanceled? || ev.Summarize?
    ensures MapsOf(Apply(st, ev)) == MapsOf(st)
  {
    if ev.id in st.cells {
      var c := st.cells[ev.id];
      MapsAt(st, ev.id, Moved(c, ev), st.audits);
      assert st.cells[ev.id := c] == st.cells;
      MapsAt(st, ev.id, c, st.audits);
    }
  }

  class Service {
    var invocations: map<InvocationId, InvocationRecord>
    var results: map<InvocationId, Option<seq<Result>>>
    var audits: map<EventId, AuditRecord>
    var auditByInvoke: map<InvocationId, EventId>
    var cancelFns: set<InvocationId>
    /** The state of the machine: the maps above, and where each goroutine and
        each context stands. */
    ghost var st: State

    ghost predicate Valid()
      reads this, invocations.Values, audits.Values
    {
      && KeysAreIds()
      && invocations.Keys == st.cells.Keys && audits.Keys == st.audits.Keys
      && Snapshot() == MapsOf(st)
    }

    predicate KeysAreIds()
      reads this`invocations, this`audits
    {
      && (forall id :: id in invocations ==> invocations[id].id == id)
      && (forall e :: e in audits ==> audits[e].id == e)
    }

    /** The present contents of the maps. */
    function Snapshot(): Maps
      reads this`invocations, this`results, this`audits, this`auditByInvoke, this`cancelFns, invocations.Values,
        audits.Values
    {
      Maps(InvocationsView(), results, AuditsView(), auditByInvoke, cancelFns)
    }

    function InvocationsView(): map<InvocationId, Invocation>
      reads this`invocations, invocations.Values
    {
      map id | id in invocations :: invocations[id].View()
    }

    function AuditsView(): map<EventId, Audit>
      reads this`audits, audits.Values
    {
      map e | e in audits :: audits[e].View()
    }

    constructor ()
      ensures Valid() && st == EMPTY && invocations == map[] && audits == map[]
    {
      invocations, results, audits, auditByInvoke, cancelFns := map[], map[], map[], map[], {};
      st := EMPTY;
    }

    // --- the maps alone ---

    method AddRecord(id: InvocationId, targets: seq<string>, async: bool)
      requires KeysAreIds() && id !in invocations
      modifies this`invocations, this`results
      ensures KeysAreIds() && id in invocations && fresh(invocations[id])
        && invocations == old(invocations)[id := invocations[id]]
      ensures Snapshot() ==
        old(Snapshot()).(invocations :=
          old(Snapshot()).invocations[id := Invocation(targets, async, Pending, None, None)],
                                             results := old(results)[id := None])
    {
      var record := new InvocationRecord(id, targets, async);
      invocations := invocations[id := record];
      results := results[id := None];
      assert InvocationsView() == old(InvocationsView())[id := Invocation(targets, async, Pending, None, None)];
      assert AuditsView() == old(AuditsView());
    }

    method AddAudit(id: InvocationId, event: EventId)
      requires KeysAreIds() && event !in audits
      modifies this`audits, this`auditByInvoke
      ensures KeysAreIds() && event in audits && fresh(audits[event]) && audits == old(audits)[event := audits[event]]
      ensures Snapshot() == old(Snapshot()).(audits := old(Snapshot()).audits[event := Audit(id, Accepted, None)],
                                             auditByInvoke := old(auditByInvoke)[id := event])
    {
      var record := new AuditRecord(event, id);
      audits := audits[event := record];
      auditByInvoke := auditByInvoke[id := event];
      assert InvocationsView() == old(InvocationsView());
      assert AuditsView() == old(AuditsView())[event := Audit(id, Accepted, None)];
    }

    method SetRunning(id: InvocationId, now: int)
      requires KeysAreIds() && id in invocations
      modifies invocations[id]
      ensures KeysAreIds()
      ensures Snapshot() == old(Snapshot()).(invocations := old(Snapshot()).invocations[id :=
        old(Snapshot()).invocations[id].(status := Running, startedAt := Some(now))])
    {
      invocations[id].Start(now);
    }

    method SetFinished(id: InvocationId, rs: seq<Result>, final: Status, started: int, now: int)
      requires KeysAreIds() && id in invocations
      modifies invocations[id], this`results
      ensures KeysAreIds()
      ensures Snapshot() ==
        old(Snapshot()).(invocations := old(Snapshot()).invocations[id := old(Snapshot()).invocations[id].(
        status := final, finishedAt := Some(now),
        startedAt := if old(invocations[id].startedAt).Some? then old(invocations[id].startedAt) else Some(started))],
        results := old(results)[id := Some(rs)])
    {
      ghost var was := InvocationsView();
      invocations[id].Finish(final, started, now);
      results := results[id := Some(rs)];
      assert InvocationsView() == was[id := invocations[id].View()];
      assert AuditsView() == old(AuditsView());
    }

    method SetDecision(id: InvocationId, decision: Status, finished: int)
      requires KeysAreIds()
      modifies this`cancelFns, if id in auditByInvoke && auditByInvoke[id] in audits
        then {audits[auditByInvoke[id]]} else {}
      ensures KeysAreIds()
      ensures var m := old(Snapshot());
              Snapshot() == m.(
                cancelFns := m.cancelFns - {id},
                audits := if id in m.auditByInvoke && m.auditByInvoke[id] in m.audits
                          then m.audits[m.auditByInvoke[id] :=
                            m.audits[m.auditByInvoke[id]].(decision := Final(decision), finishedAt := Some(finished))]
                          else m.audits)
    {
      if id in auditByInvoke && auditByInvoke[id] in audits {
        var event := audits[auditByInvoke[id]];
        event.decision := Final(decision);
        event.finishedAt := Some(finished);
      }
      cancelFns := cancelFns - {id};
    }

    // --- the lock sections ---

    /** The machine takes the step that the maps have taken. */
    ghost method Commit(ev: Event)
      requires KeysAreIds() && Snapshot() == MapsOf(Apply(st, ev))
      modifies this`st
      ensures Valid() && st == Apply(old(st), ev)
    {
      st := Apply(st, ev);
      assert Snapshot().invocations.Keys == invocations.Keys && Snapshot().audits.Keys == audits.Keys;
      assert MapsOf(st).invocations.Keys == st.cells.Keys;
    }

    /** The first lock section of creating an invocation; `id` is a minted one. */
    method Insert(id: InvocationId, requested: seq<string>, async: bool)
      requires Valid() && id !in invocations
      modifies this`st, this`invocations, this`results
      ensures Valid() && st == Apply(old(st), Event.Insert(id, requested, async))
      ensures id in invocations && fresh(invocations[id]) && invocations == old(invocations)[id := invocations[id]]
    {
      var targets := Dedupe(requested);
      InsertMaps(st, id, requested, async);
      AddRecord(id, targets, async);
      Commit(Event.Insert(id, requested, async));
    }

    method RecordAuditStart(id: InvocationId, event: EventId)
      requires Valid() && id in invocations && st.cells[id].job.Inserted? && !st.cells[id].cancelable
        && event !in audits
      modifies this`st, this`audits, this`auditByInvoke
      ensures Valid() && st == Apply(old(st), RecordAudit(id, event))
      ensures event in audits && fresh(audits[event]) && audits == old(audits)[event := audits[event]]
    {
      AuditMaps(st, id, event);
      AddAudit(id, event);
      Commit(RecordAudit(id, event));
    }

    /** An asynchronous invocation gets its cancel function before its goroutine starts. */
    method Launch(id: InvocationId)
      requires Valid() && id in invocations && st.cells[id].job.Audited?
      modifies this`st, this`cancelFns
      ensures Valid() && st == Apply(old(st), Event.Launch(id))
    {
      LaunchMaps(st, id);
      assert Snapshot().invocations[id] == invocations[id].View();
      if invocations[id].async {
        cancelFns := cancelFns + {id};
      }
      Commit(Event.Launch(id));
    }

    method Begin(id: InvocationId, now: int)
      requires Valid() && id in invocations && st.cells[id].job.Launched?
      modifies this`st, invocations[id]
      ensures Valid() && st == Apply(old(st), Event.Begin(id, now))
    {
      BeginMaps(st, id, now);
      SetRunning(id, now);
      Commit(Event.Begin(id, now));
    }

    /** The last lock section of an execution: status, finishing time and results. */
    method Store(id: InvocationId, rs: seq<Result>, final: Status, started: int, now: int)
      requires Valid() && id in invocations && st.cells[id].job == Summarized(rs, final)
      requires st.cells[id].invocation.startedAt.Some?
      modifies this`st, this`results, invocations[id]
      ensures Valid() && st == Apply(old(st), Finish(id, now))
    {
      FinishMaps(st, id, now);
      assert Snapshot().invocations[id] == invocations[id].View();
      SetFinished(id, rs, final, started, now);
      Commit(Finish(id, now));
    }

    /** Closes the audit event of `id`, if it has one, and drops the cancel function. */
    method FinishAudit(id: InvocationId, decision: Status, finished: int)
      requires Valid() && id in invocations && st.cells[id].job == Stored(decision, finished)
      modifies this`st, this`cancelFns, audits.Values
      ensures Valid() && st == Apply(old(st), Event.FinishAudit(id))
    {
      CloseMaps(st, id);
      SetDecision(id, decision, finished);
      Commit(Event.FinishAudit(id));
    }

    /** Nothing for an unknown or a finished invocation; for the others the
        cancel function, if there is one. */
    method CancelInvocation(id: InvocationId) returns (found: bool, view: Invocation)
      requires Valid()
      modifies this`st
      ensures Valid() && st == Apply(old(st), Cancel(id))
      ensures found <==> id in invocations
      ensures found ==> view == invocations[id].View()
    {
      if id !in invocations {
        return false, Invocation([], false, Pending, None, None);
      }
      CancelMaps(st, id);
      assert Snapshot().invocations[id] == invocations[id].View();
      var inv := invocations[id];
      found, view := true, inv.View();
      if !(inv.status.Succeeded? || inv.status.Failed? || inv.status.Partial? || inv.status.Canceled?)
        && id in cancelFns {
        CallCancel(id);
      }
    }

    /** The cancel function of an invocation cancels its context and nothing else. */
    ghost method CallCancel(id: InvocationId)
      requires id in st.cells
      modifies this`st
      ensures st == State(old(st).cells[id := old(st).cells[id].(canceled := true)], old(st).audits)
    {
      st := State(st.cells[id := st.cells[id].(canceled := true)], st.audits);
    }

    method GetInvocationResults(id: InvocationId) returns (rs: Option<seq<Result>>)
      requires Valid() && Inv(st)
      ensures rs.Some? <==> id in invocations
      ensures rs.Some? ==> rs.value == if st.cells[id].results.Some? then st.cells[id].results.value else []
      ensures rs.Some? && Terminal(invocations[id].status) ==> Complete(invocations[id].targets, rs.value)
    {
      assert results == MapsOf(st).results;
      if id !in results {
        return None;
      }
      assert Snapshot().invocations[id] == invocations[id].View();
      rs := Some(if results[id].Some? then results[id].value else []);
    }

    // --- the goroutine of an invocation ---

    /** Something between the lock sections: a target answers, the context is
        canceled, the results are summed up. */
    ghost method Happen(ev: Event)
      requires Valid() && (ev.TargetDone? || ev.ContextCanceled? || ev.Summarize?)
      modifies this`st
      ensures Valid() && st == Apply(old(st), ev)
    {
      QuietMaps(st, ev);
      Commit(ev);
    }

    /** The fan-out: the targets complete in the order `order`, the context being
        canceled when `cancelAt` of them have. */
    method CollectResults(id: InvocationId, order: seq<string>, outcomes: map<string, Outcome>, cancelAt: nat)
      returns (results: seq<Result>, ghost run: seq<Event>)
      requires Valid() && id in st.cells && st.cells[id].job == Executing([])
      requires Distinct(order) && forall t :: t in order ==> t in st.cells[id].invocation.targets && t in outcomes
      modifies this`st
      ensures Valid() && st == Run(old(st), run) && id in st.cells
      ensures results == Collected(order, outcomes)
      ensures st.cells[id] ==
        old(st).cells[id].(job := Executing(results), canceled := old(st).cells[id].canceled || cancelAt <= |order|)
    {
      results := [];
      for k := 0 to |order|
        invariant results == Collected(order[..k], outcomes)
        modifies {}
      {
        assert Collected(order[..k + 1], outcomes) ==
          Collected(order[..k], outcomes) + [ResultFor(order[k], outcomes[order[k]])];
        var result := ExecuteTarget(order[k], outcomes[order[k]]);
        results := results + [result];
      }
      assert order[..|order|] == order;
      run := FanOutRun(st, id, order, outcomes, cancelAt, |order|);
      if cancelAt == |order| {
        run := OneMore(st, run, ContextCanceled(id));
      }
      assert MapsOf(Run(st, run)) == MapsOf(st);
      Follow(run);
    }

    /** The machine takes steps that the maps do not show. */
    ghost method Follow(run: seq<Event>)
      requires Valid() && MapsOf(Run(st, run)) == MapsOf(st)
      modifies this`st
      ensures Valid() && st == Run(old(st), run)
    {
      st := Run(st, run);
      assert MapsOf(st).invocations.Keys == st.cells.Keys && Snapshot().invocations.Keys == invocations.Keys;
    }

    /** The maps show the results `out` of the finished invocation `id`, and its
        audit event, if there is one, the status of the invocation. */
    ghost predicate Shows(id: InvocationId, out: seq<Result>, event: Option<EventId>)
      reads this`invocations, this`results, this`audits, this`cancelFns, invocations.Values, audits.Values
    {
      && id in invocations && id in results && results[id] == Some(out) && id !in cancelFns
      && (event.Some? && event.value in audits ==> audits[event.value].decision == Final(invocations[id].status))
    }

    /** What the machine says of a closed invocation is in the maps. */
    lemma ClosedShows(id: InvocationId, out: seq<Result>, final: Status)
      requires Valid() && ClosedWith(st, id, out, final)
      requires var e := st.cells[id].audit;
        e.Some? && e.value in st.audits ==> st.audits[e.value].decision == Final(final)
      ensures Shows(id, out, st.cells[id].audit) && invocations[id].status == final
    {
      assert Snapshot().invocations[id] == invocations[id].View();
      assert Snapshot().results[id] == Some(out);
      assert id !in Snapshot().cancelFns;
      var e := st.cells[id].audit;
      if e.Some? && e.value in audits {
        assert Snapshot().audits[e.value] == audits[e.value].View();
      }
    }

    /** What follows the fan-out: the results are sorted and summed up, stored, and
        the audit event closed. `ctxCanceled` is what the context says then. */
    method Conclude(id: InvocationId, results: seq<Result>, ctxCanceled: bool, started: int, finished: int)
      returns (out: seq<Result>)
      requires Valid() && id in invocations && st.cells[id].job == Executing(results)
        && st.cells[id].invocation.startedAt.Some?
      requires AllDone(results, st.cells[id].invocation.targets) && ctxCanceled == st.cells[id].canceled
      modifies this`st, this`results, this`cancelFns, invocations[id], audits.Values
      ensures Valid() && st == Run(old(st), [Summarize(id), Finish(id, finished), Event.FinishAudit(id)])
      ensures out == SortById(results) && ClosedWith(st, id, out, Summary(out, ctxCanceled))
      ensures Shows(id, out, old(st).cells[id].audit) && invocations[id].status == Summary(out, ctxCanceled)
    {
      ConcludingSteps(st, id, results, finished);
      out := SortById(results);
      var final := SummarizeInvocationStatus(out, ctxCanceled);
      Happen(Summarize(id));
      StoreAndClose(id, out, final, started, finished);
      ClosedShows(id, out, final);
    }

    method StoreAndClose(id: InvocationId, out: seq<Result>, final: Status, started: int, finished: int)
      requires Valid() && id in invocations && st.cells[id].job == Summarized(out, final)
        && st.cells[id].invocation.startedAt.Some?
      modifies this`st, this`results, this`cancelFns, invocations[id], audits.Values
      ensures Valid() && st == Apply(Apply(old(st), Finish(id, finished)), Event.FinishAudit(id))
    {
      Store(id, out, final, started, finished);
      FinishAudit(id, final, finished);
    }

    /** Executes an invocation whose targets complete in the order `order`: the
        results are those of the targets sorted by node, whatever the order, and
        the status is their summary; the steps taken are a run of the machine. */
    method ExecuteInvocation(id: InvocationId, order: seq<string>, outcomes: map<string, Outcome>, ctxCanceled: bool,
        cancelAt: nat, started: int, finished: int)
      returns (out: seq<Result>, ghost run: seq<Event>)
      requires Valid() && id in invocations && st.cells[id].job.Launched? && ctxCanceled == st.cells[id].canceled
      requires Distinct(st.cells[id].invocation.targets) && multiset(order) == multiset(st.cells[id].invocation.targets)
      requires forall t :: t in st.cells[id].invocation.targets ==> t in outcomes
      modifies this`st, this`results, this`cancelFns, invocations[id], audits.Values
      ensures Valid() && st == Run(old(st), run)
      ensures out == SortById(Collected(old(st).cells[id].invocation.targets, outcomes))
      ensures ClosedWith(st, id, out, Summary(out, ctxCanceled || cancelAt <= |order|))
      ensures Reports(out, old(st).cells[id].invocation.targets, outcomes)
      ensures Shows(id, out, old(st).cells[id].audit)
      ensures Sums(invocations[id].status, old(st).cells[id].invocation.targets, outcomes,
        ctxCanceled || cancelAt <= |order|)
    {
      ghost var was, targets := st, st.cells[id].invocation.targets;
      OrderIsDistinct(targets, order, outcomes);
      FanOutIsOrderIndependent(targets, order, targets, outcomes, false);
      AllComplete(targets, order, outcomes);
      Begin(id, started);
      var results;
      results, run := CollectResults(id, order, outcomes, cancelAt);
      RunCons(was, Event.Begin(id, started), run);
      run := [Event.Begin(id, started)] + run;
      RunAppend(was, run, [Summarize(id), Finish(id, finished), Event.FinishAudit(id)]);
      run := run + [Summarize(id), Finish(id, finished), Event.FinishAudit(id)];
      out := Conclude(id, results, ctxCanceled || cancelAt <= |order|, started, finished);
      OutcomesDecide(targets, outcomes, ctxCanceled || cancelAt <= |order|);
    }

    /** What precedes the execution of a new invocation. */
    method Open(id: InvocationId, event: EventId, requested: seq<string>, async: bool)
      requires Valid() && id !in invocations && event !in audits
      modifies this`st, this`invocations, this`results, this`audits, this`auditByInvoke, this`cancelFns
      ensures Valid() && st ==
        Run(old(st), [Event.Insert(id, requested, async), RecordAudit(id, event), Event.Launch(id)])
      ensures id in invocations && fresh(invocations[id])
      ensures event in audits && fresh(audits[event]) && audits == old(audits)[event := audits[event]]
      ensures id in st.cells
        && st.cells[id] == NewCell(requested, async).(audit := Some(event), job := Launched, cancelable := async)
    {
      CreatingSteps(st, id, event, requested, async);
      Insert(id, requested, async);
      RecordAuditStart(id, event);
      Launch(id);
    }

    /** The creation of an asynchronous invocation: it is registered, in the audit
        and in the cancel map, and pending, when its goroutine starts, which then is
        ExecuteInvocation; what is returned is the pending invocation. */
    method CreateAsync(id: InvocationId, event: EventId, requested: seq<string>) returns (view: Invocation)
      requires Valid() && id !in invocations && event !in audits
      modifies this`st, this`invocations, this`results, this`audits, this`auditByInvoke, this`cancelFns
      ensures Valid()
      ensures st == Run(old(st), [Event.Insert(id, requested, true), RecordAudit(id, event), Event.Launch(id)])
      ensures id in invocations && id in cancelFns && id in results && results[id] == None
      ensures view == invocations[id].View() == Invocation(Deduped(requested), true, Pending, None, None)
    {
      Open(id, event, requested, true);
      assert id in Snapshot().cancelFns && Snapshot().invocations[id] == invocations[id].View();
      assert Snapshot().results[id] == None;
      view := invocations[id].View();
    }

    /** The synchronous creation of an invocation, with the minted id `id` and the
        minted event `event`, under a context that is not canceled at first. */
    method CreateInvocation(id: InvocationId, event: EventId, requested: seq<string>, order: seq<string>,
        outcomes: map<string, Outcome>,
                            cancelAt: nat, started: int, finished: int)
      returns (out: seq<Result>, ghost run: seq<Event>)
      requires Valid() && id !in invocations && event !in audits
      requires multiset(order) == multiset(Deduped(requested)) && forall t :: t in Deduped(requested) ==> t in outcomes
      modifies this, audits.Values
      ensures Valid() && st == Run(old(st), run)
      ensures out == SortById(Collected(Deduped(requested), outcomes))
      ensures ClosedWith(st, id, out, Summary(out, cancelAt <= |order|))
      ensures Reports(out, Deduped(requested), outcomes) && Shows(id, out, Some(event)) && event in audits
      ensures Sums(invocations[id].status, Deduped(requested), outcomes, cancelAt <= |order|)
    {
      DedupedIsExact(requested);
      Open(id, event, requested, false);
      ghost var opening, was := [Event.Insert(id, requested, false), RecordAudit(id, event), Event.Launch(id)], old(st);
      out, run := ExecuteInvocation(id, order, outcomes, false, cancelAt, started, finished);
      RunAppend(was, opening, run);
      run := opening + run;
    }
  }

  lemma CreatingSteps(st: State, id: InvocationId, event: EventId, requested: seq<string>, async: bool)
    requires id !in st.cells && event !in st.audits
    ensures var s := Apply(st, Insert(id, requested, async));
            var t := Apply(s, RecordAudit(id, event));
            var u := Apply(t, Launch(id));
            && s == State(st.cells[id := NewCell(requested, async)], st.audits)
            && id in t.cells && t.cells[id].job.Audited?
            && id in u.cells && u.cells[id] ==
              NewCell(requested, async).(audit := Some(event), job := Launched, cancelable := async)
            && Run(st, [Insert(id, requested, async), RecordAudit(id, event), Launch(id)]) == u
  {
    RunThree(st, Insert(id, requested, async), RecordAudit(id, event), Launch(id));
  }

  /** The invocation is over, with these results and this status. */
  predicate ClosedWith(st: State, id: InvocationId, out: seq<Result>, final: Status) {
    && id in st.cells
    && st.cells[id].results == Some(out)
    && st.cells[id].job == Closed(final)
    && st.cells[id].invocation.status == final
    && !st.cells[id].cancelable
  }

  /** The audit event that the invocation had in `st` has its status in `end`. */
  predicate Decides(st: State, end: State, id: InvocationId, final: Status)
    requires id in st.cells
  {
    var e := st.cells[id].audit;
    e.Some? && e.value in st.audits ==> e.value in end.audits && end.audits[e.value].decision == Final(final)
  }

  lemma ConcludingSteps(st: State, id: InvocationId, results: seq<Result>, finished: int)
    requires id in st.cells && st.cells[id].job == Executing(results)
    requires AllDone(results, st.cells[id].invocation.targets)
    ensures var out, final := SortById(results), Summary(SortById(results), st.cells[id].canceled);
            var s := Apply(st, Summarize(id));
            var t := Apply(s, Finish(id, finished));
            var u := Apply(t, FinishAudit(id));
            && id in s.cells && s.cells[id].job == Summarized(out, final)
              && s.cells[id].invocation == st.cells[id].invocation
            && id in t.cells && t.cells[id].job == Stored(final, finished)
            && ClosedWith(u, id, out, final) && u.cells[id].audit == st.cells[id].audit
            && Decides(st, u, id, final)
            && Run(st, [Summarize(id), Finish(id, finished), FinishAudit(id)]) == u
  {
    RunThree(st, Summarize(id), Finish(id, finished), FinishAudit(id));
  }

  lemma RunCons(st: State, ev: Event, es: seq<Event>)
    ensures Run(st, [ev] + es) == Run(Apply(st, ev), es)
  {
    assert ([ev] + es)[1..] == es;
  }

  lemma RunThree(st: State, a: Event, b: Event, c: Event)
    ensures Run(st, [a, b, c]) == Apply(Apply(Apply(st, a), b), c)
  {
    RunCons(st, a, [b] + [c]);
    RunCons(Apply(st, a), b, [c] + []);
    RunCons(Apply(Apply(st, a), b), c, []);
    assert [a, b, c] == [a] + ([b] + [c]) && [c] + [] == [c];
  }

  lemma OneMore(st: State, run: seq<Event>, ev: Event) returns (longer: seq<Event>)
    requires ev.TargetDone? || ev.ContextCanceled? || ev.Summarize?
    ensures Run(st, longer) == Apply(Run(st, run), ev) && MapsOf(Run(st, longer)) == MapsOf(Run(st, run))
  {
    longer := run + [ev];
    RunThen(st, run, ev);
    QuietMaps(Run(st, run), ev);
  }

  /** The steps of a fan-out up to the completion of `k` targets. */
  lemma {:induction false} FanOutRun(st: State, id: InvocationId, order: seq<string>, outcomes: map<string, Outcome>,
      cancelAt: nat, k: nat)
    returns (run: seq<Event>)
    requires k <= |order| && Distinct(order) && id in st.cells && st.cells[id].job == Executing([])
    requires forall t :: t in order ==> t in st.cells[id].invocation.targets && t in outcomes
    ensures id in Run(st, run).cells && MapsOf(Run(st, run)) == MapsOf(st)
    ensures Run(st, run).cells[id] ==
      st.cells[id].(job := Executing(Collected(order[..k], outcomes)), canceled := st.cells[id].canceled
        || cancelAt < k)
  {
    if k == 0 {
      run := [];
    } else {
      run := FanOutRun(st, id, order, outcomes, cancelAt, k - 1);
      if k - 1 == cancelAt {
        run := OneMore(st, run, ContextCanceled(id));
      }
      TargetCompletes(Run(st, run).cells[id], id, order, k - 1, outcomes);
      run := OneMore(st, run, TargetDone(id, order[k - 1], outcomes[order[k - 1]]));
    }
  }

  lemma TargetCompletes(c: Cell, id: InvocationId, order: seq<string>, k: nat, outcomes: map<string, Outcome>)
    requires k < |order| && Distinct(order) && forall t :: t in order ==> t in c.invocation.targets && t in outcomes
    requires c.job == Executing(Collected(order[..k], outcomes))
    ensures Moved(c, TargetDone(id, order[k], outcomes[order[k]])) ==
      c.(job := Executing(Collected(order[..k + 1], outcomes)))
    ensures Collected(order[..k + 1], outcomes) ==
      Collected(order[..k], outcomes) + [ResultFor(order[k], outcomes[order[k]])]
  {
    assert order[..k + 1] == order[..k] + [order[k]];
    assert order[k] in order;
    assert Collected(order[..k + 1], outcomes) ==
      Collected(order[..k], outcomes) + [ResultFor(order[k], outcomes[order[k]])];
    assert !HasResult(c.job.done, order[k]);
  }

  lemma OrderIsDistinct(targets: seq<string>, order: seq<string>, outcomes: map<string, Outcome>)
    requires Distinct(targets) && multiset(order) == multiset(targets) && forall t :: t in targets ==> t in outcomes
    ensures Distinct(order) && forall t :: t in order ==> t in targets && t in outcomes
  {
    CollectedPermutes(targets, order, outcomes);
    CollectedIsDistinct(targets, outcomes);
    DistinctInOrder(NodeOf, Collected(targets, outcomes), Collected(order, outcomes));
    forall i, j | 0 <= i < j < |order| ensures order[i] != order[j] {
      assert Collected(order, outcomes)[i].nodeId != Collected(order, outcomes)[j].nodeId;
    }
    forall t | t in order ensures t in targets { assert t in multiset(order); }
  }

  lemma AllComplete(targets: seq<string>, order: seq<string>, outcomes: map<string, Outcome>)
    requires multiset(order) == multiset(targets) && forall t :: t in order ==> t in outcomes
    ensures AllDone(Collected(order, outcomes), targets)
  {
    forall t | t in targets ensures HasResult(Collected(order, outcomes), t) {
      assert t in multiset(targets) && t in order;
      var i :| 0 <= i < |order| && order[i] == t;
      assert Collected(order, outcomes)[i] in Collected(order, outcomes);
    }
  }
}
