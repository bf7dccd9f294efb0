/** Command templates at center: what creating and updating them does to the
    stored templates, the index of their names and the audit events. */
module Templates {
  import opened Tunnel
  import opened Schemas
  import Text
  import RequestIds

  type TemplateId = string

  datatype Template = Template(
    id: TemplateId, name: string, description: string, risk: string, targetOS: seq<string>, command: string,
    schema: Fields, defaultTimeout: int, maxTimeout: int, maxOutput: int, enabled: bool, updatedAt: int)

  datatype CreateRequest = CreateRequest(
    name: string, description: string, risk: string, targetOS: seq<string>, executorType: string, command: string,
    schema: Fields, defaultTimeout: int, maxTimeout: int, maxOutput: int)

  /** The fields a patch names; the others stay. */
  datatype Patch = Patch(
    description: Option<string>, risk: Option<string>, targetOS: Option<seq<string>>, schema: Option<Fields>,
    defaultTimeout: Option<int>, maxTimeout: Option<int>, maxOutput: Option<int>, enabled: Option<bool>)

  datatype Error = Forbidden | BadRequest | BadTimeouts | Conflict | NotFound

  datatype Note = Note(action: string, risk: string, decision: string)

  type EventId = string

  datatype State = State(templates: map<TemplateId, Template>, nameIds: map<string, TemplateId>, audits: map<EventId,
    Note>)

  const EMPTY := State(map[], map[], map[])

  predicate ValidRisk(risk: string) {
    risk == "readonly" || risk == "mutating" || risk == "dangerous"
  }

  predicate ValidTimeouts(t: Template) {
    0 < t.defaultTimeout <= t.maxTimeout
  }

  predicate IsAbs(path: string) {
    path != "" && path[0] == '/'
  }

  const DEFAULT_OUTPUT := 256 * 1024

  // --- creating ---

  function Built(id: TemplateId, req: CreateRequest, now: int): Template {
    Template(id, req.name, req.description, req.risk, req.targetOS, req.command, req.schema, req.defaultTimeout,
      req.maxTimeout,
             if req.maxOutput <= 0 then DEFAULT_OUTPUT else req.maxOutput, true, now)
  }

  /** The first thing that is wrong with a request. */
  function BuildError(req: CreateRequest): Option<Error> {
    if Text.Trim(req.name) == "" || !ValidRisk(req.risk) || req.executorType != "process" || !IsAbs(req.command)
      || !ValidSchema(req.schema)
    then Some(BadRequest)
    else if !(0 < req.defaultTimeout <= req.maxTimeout) then Some(BadTimeouts)
    else None
  }

  function CreateError(st: State, admin: bool, req: CreateRequest): Option<Error> {
    if !admin then Some(Forbidden)
    else if BuildError(req).Some? then BuildError(req)
    else if req.name in st.nameIds then Some(Conflict)
    else None
  }

  // --- patching ---

  function Or<T>(o: Option<T>, other: T): T {
    if o.Some? then o.value else other
  }

  /** The three points up to which a patch is written into the record. */
  function Described(t: Template, p: Patch): Template {
    t.(description := Or(p.description, t.description))
  }

  function Classified(t: Template, p: Patch): Template {
    Described(t, p).(risk := Or(p.risk, t.risk), targetOS := Or(p.targetOS, t.targetOS))
  }

  function Merged(t: Template, p: Patch): Template {
    Classified(t, p).(
      schema := Or(p.schema, t.schema),
      defaultTimeout := Or(p.defaultTimeout, t.defaultTimeout),
      maxTimeout := Or(p.maxTimeout, t.maxTimeout),
      maxOutput := Or(p.maxOutput, t.maxOutput),
      enabled := Or(p.enabled, t.enabled))
  }

  function PatchError(t: Template, p: Patch): Option<Error> {
    if p.risk.Some? && !ValidRisk(p.risk.value) then Some(BadRequest)
    else if p.schema.Some? && !ValidSchema(p.schema.value) then Some(BadRequest)
    else if !ValidTimeouts(Merged(t, p)) then Some(BadTimeouts)
    else None
  }

  /** What is in the store afterwards, whether the patch succeeds or fails. */
  function Patched(t: Template, p: Patch, now: int): Template {
    if p.risk.Some? && !ValidRisk(p.risk.value) then Described(t, p)
    else if p.schema.Some? && !ValidSchema(p.schema.value) then Classified(t, p)
    else if !ValidTimeouts(Merged(t, p)) then Merged(t, p)
    else Merged(t, p).(updatedAt := now)
  }

  // --- the machine ---

  /** Ids of templates and events are minted: one that is taken is not issued. */
  datatype Op =
    | Create(admin: bool, id: TemplateId, event: EventId, req: CreateRequest, now: int)
    | Update(admin: bool, id: TemplateId, event: EventId, patch: Patch, now: int)

  predicate Fresh(st: State, op: Op) {
    op.event !in st.audits && (op.Create? ==> op.id !in st.templates)
  }

  function OpError(st: State, op: Op): Option<Error> {
    match op
    case Create(admin, _, _, req, _) => CreateError(st, admin, req)
    case Update(admin, id, _, patch, _) =>
      if !admin then Some(Forbidden) else if id !in st.templates
        then Some(NotFound) else PatchError(st.templates[id], patch)
  }

  function Apply(st: State, op: Op): State {
    match op
    case Create(admin, id, event, req, now) =>
      if CreateError(st, admin, req).Some? then st
      else State(st.templates[id := Built(id, req, now)], st.nameIds[req.name := id],
        st.audits[event := Note(req.name, req.risk, "created")])
    case Update(admin, id, event, patch, now) =>
      if !admin || id !in st.templates then st
      else
        var t := Patched(st.templates[id], patch, now);
        State(st.templates[id := t], st.nameIds,
              if PatchError(st.templates[id], patch).Some?
                then st.audits else st.audits[event := Note(t.name, t.risk, "updated")])
  }

  function Run(st: State, ops: seq<Op>): State
    decreases |ops|
  {
    if ops == [] then st else Run(Apply(st, ops[0]), ops[1..])
  }

  /** Every operation of the sequence gets ids that are new at its turn. */
  predicate AllFresh(st: State, ops: seq<Op>)
    decreases |ops|
  {
    ops != [] ==> Fresh(st, ops[0]) && AllFresh(Apply(st, ops[0]), ops[1..])
  }

  // --- what every run keeps ---

  /** The stored templates and the index of names are each other's inverse. */
  predicate IndexInverse(st: State) {
    && (forall id :: id in st.templates ==>
          && st.templates[id].id == id
          && st.templates[id].name in st.nameIds && st.nameIds[st.templates[id].name] == id)
    && (forall n :: n in st.nameIds ==> st.nameIds[n] in st.templates && st.templates[st.nameIds[n]].name == n)
  }

  /** What stays true of a stored template whatever patches succeed or fail. */
  predicate Sound(t: Template) {
    ValidRisk(t.risk) && ValidSchema(t.schema) && IsAbs(t.command) && Text.Trim(t.name) != ""
  }

  predicate Inv(st: State) {
    IndexInverse(st) && forall id :: id in st.templates ==> Sound(st.templates[id])
  }

  lemma PatchKeeps(t: Template, p: Patch, now: int)
    requires Sound(t)
    ensures Sound(Patched(t, p, now)) && Patched(t, p, now).id == t.id && Patched(t, p, now).name == t.name
  {
  }

  lemma BuiltIsSound(id: TemplateId, req: CreateRequest, now: int)
    requires BuildError(req).None?
    ensures Sound(Built(id, req, now)) && ValidTimeouts(Built(id, req, now))
  {
  }

  lemma AddKeeps(st: State, t: Template, audits: map<EventId, Note>)
    requires Inv(st) && Sound(t) && t.id !in st.templates && t.name !in st.nameIds
    ensures Inv(State(st.templates[t.id := t], st.nameIds[t.name := t.id], audits))
  {
  }

  lemma CreateKeeps(st: State, op: Op)
    requires Inv(st) && Fresh(st, op) && op.Create?
    ensures Inv(Apply(st, op))
  {
    if CreateError(st, op.admin, op.req).None? {
      BuiltIsSound(op.id, op.req, op.now);
      AddKeeps(st, Built(op.id, op.req, op.now), Apply(st, op).audits);
    }
  }

  lemma ReplaceKeeps(st: State, t: Template, audits: map<EventId, Note>)
    requires Inv(st) && Sound(t) && t.id in st.templates && t.name == st.templates[t.id].name
    ensures Inv(State(st.templates[t.id := t], st.nameIds, audits))
  {
  }

  lemma UpdateKeeps(st: State, op: Op)
    requires Inv(st) && op.Update?
    ensures Inv(Apply(st, op))
  {
    if op.admin && op.id in st.templates {
      PatchKeeps(st.templates[op.id], op.patch, op.now);
      ReplaceKeeps(st, Patched(st.templates[op.id], op.patch, op.now), Apply(st, op).audits);
    }
  }

  /** After any sequence of creates and updates, successful or failed, the two maps
      are inverse to each other and every stored template has a risk level and a
      schema that the service accepts. */
  lemma {:induction false} RunKeeps(st: State, ops: seq<Op>)
    requires Inv(st) && AllFresh(st, ops)
    ensures Inv(Run(st, ops))
    decreases |ops|
  {
    if ops != [] {
      if ops[0].Create? { CreateKeeps(st, ops[0]); } else { UpdateKeeps(st, ops[0]); }
      RunKeeps(Apply(st, ops[0]), ops[1..]);
    }
  }

  /** Names never change hands: once taken, a name belongs to its template for good. */
  lemma {:induction false} NamesStay(st: State, ops: seq<Op>, name: string)
    requires name in st.nameIds
    ensures name in Run(st, ops).nameIds && Run(st, ops).nameIds[name] == st.nameIds[name]
    decreases |ops|
  {
    if ops != [] {
      NamesStay(Apply(st, ops[0]), ops[1..], name);
    }
  }

  // --- when an operation succeeds ---

  /** A creation succeeds exactly for an administrator, with a name that is more
      than white space and not taken, a known risk level, an executable given by
      its absolute path, a schema that the service accepts, and a default timeout
      between one second and the maximum. */
  lemma CreateSucceedsIff(st: State, op: Op)
    requires op.Create?
    ensures OpError(st, op).None? <==>
      && op.admin && Text.Trim(op.req.name) != "" && op.req.name !in st.nameIds
      && op.req.risk in {"readonly", "mutating", "dangerous"} && op.req.executorType == "process"
      && op.req.command != "" && op.req.command[0] == '/' && ValidSchema(op.req.schema)
      && 1 <= op.req.defaultTimeout <= op.req.maxTimeout
  {
  }

  /** And a patch, of a template that is there, when the risk level and the schema
      it names are valid and the timeouts that result are in order. */
  lemma UpdateSucceedsIff(st: State, op: Op)
    requires op.Update?
    ensures OpError(st, op).None? <==>
      && op.admin && op.id in st.templates
      && (op.patch.risk.Some? ==> op.patch.risk.value in {"readonly", "mutating", "dangerous"})
      && (op.patch.schema.Some? ==> ValidSchema(op.patch.schema.value))
      && (exists lower, upper :: 1 <= lower <= upper
            && Follows(lower, op.patch.defaultTimeout, st.templates[op.id].defaultTimeout)
            && Follows(upper, op.patch.maxTimeout, st.templates[op.id].maxTimeout))
  {
    if op.id in st.templates {
      var t := Merged(st.templates[op.id], op.patch);
      assert Follows(t.defaultTimeout, op.patch.defaultTimeout, st.templates[op.id].defaultTimeout);
      assert Follows(t.maxTimeout, op.patch.maxTimeout, st.templates[op.id].maxTimeout);
    }
  }

  // --- what a success stores ---

  /** A created template is what the request says, enabled, and with the default
      limit for its output when the request sets none. */
  lemma CreateStores(st: State, op: Op)
    requires op.Create? && OpError(st, op).None?
    ensures var next, req := Apply(st, op), op.req;
            && next.nameIds == st.nameIds[req.name := op.id] && next.templates.Keys == st.templates.Keys + {op.id}
            && (forall id :: id in st.templates && id != op.id ==> next.templates[id] == st.templates[id])
            && var t := next.templates[op.id];
               && t.id == op.id && t.name == req.name && t.description == req.description && t.risk == req.risk
               && t.targetOS == req.targetOS && t.command == req.command && t.schema == req.schema
               && t.defaultTimeout == req.defaultTimeout && t.maxTimeout == req.maxTimeout
               && (req.maxOutput > 0 ==> t.maxOutput == req.maxOutput)
               && (req.maxOutput <= 0 ==> t.maxOutput == 262144)
               && t.enabled && t.updatedAt == op.now
               && next.audits == st.audits[op.event := Note(req.name, req.risk, "created")]
  {
  }

  /** `field` is the patched value where there is one, and the old one elsewhere. */
  predicate Follows<T(==)>(field: T, patched: Option<T>, kept: T) {
    (patched.Some? ==> field == patched.value) && (patched.None? ==> field == kept)
  }

  /** A patch that succeeds writes each field it names, keeps the others, and
      touches no other template. */
  lemma UpdateStores(st: State, op: Op)
    requires op.Update? && OpError(st, op).None?
    ensures var next, p := Apply(st, op), op.patch;
            && next.nameIds == st.nameIds && next.templates.Keys == st.templates.Keys
            && (forall id :: id in st.templates && id != op.id ==> next.templates[id] == st.templates[id])
            && op.id in st.templates && var t, was := next.templates[op.id], st.templates[op.id];
               && t.id == was.id && t.name == was.name && t.command == was.command && t.updatedAt == op.now
               && Follows(t.description, p.description, was.description) && Follows(t.risk, p.risk, was.risk)
               && Follows(t.targetOS, p.targetOS, was.targetOS) && Follows(t.schema, p.schema, was.schema)
               && Follows(t.defaultTimeout, p.defaultTimeout, was.defaultTimeout)
               && Follows(t.maxTimeout, p.maxTimeout, was.maxTimeout)
               && Follows(t.maxOutput, p.maxOutput, was.maxOutput) && Follows(t.enabled, p.enabled, was.enabled)
               && next.audits == st.audits[op.event := Note(was.name, t.risk, "updated")]
  {
  }

  // --- failed patches ---

  /** Whether a failed operation left anything behind, exactly: a rejected create
      never does; a rejected patch does unless the part of it that comes before
      the check it failed is what the record already held. */
  lemma FailureIsNoOpIff(st: State, op: Op)
    requires OpError(st, op).Some?
    ensures Apply(st, op) == st <==>
      (op.Update? && op.admin && op.id in st.templates ==>
         var t, p := st.templates[op.id], op.patch;
         && Or(p.description, t.description) == t.description
         && (ValidRisk(Or(p.risk, "readonly")) ==>
               && Or(p.risk, t.risk) == t.risk && Or(p.targetOS, t.targetOS) == t.targetOS
               && ((p.schema.None? || ValidSchema(p.schema.value)) ==> Merged(t, p) == t)))
  {
    if op.Update? && op.admin && op.id in st.templates {
      var t := st.templates[op.id];
      var d := Patched(t, op.patch, op.now);
      assert Apply(st, op).templates[op.id] == d;
      if d == t {
        assert st.templates[op.id := t] == st.templates;
      }
    }
  }

  /** Nothing a failed operation does is in the audit events. */
  lemma FailureIsUnaudited(st: State, op: Op)
    requires Fresh(st, op)
    ensures Apply(st, op).audits == st.audits <==> OpError(st, op).Some?
  {
  }

  /** A stored template with valid timeouts keeps them through a patch exactly when
      the patch does not get as far as the timeout check and fail it there. */
  lemma TimeoutsSurviveIff(t: Template, p: Patch, now: int)
    requires ValidTimeouts(t)
    ensures ValidTimeouts(Patched(t, p, now)) <==>
      || (p.risk.Some? && !ValidRisk(p.risk.value))
      || (p.schema.Some? && !ValidSchema(p.schema.value))
      || 0 < Or(p.defaultTimeout, t.defaultTimeout) <= Or(p.maxTimeout, t.maxTimeout)
  {
  }

  /** The patch of the timeout to nothing is rejected and stored all the same. */
  lemma RejectedPatchBreaksTimeouts(st: State, id: TemplateId, event: EventId, now: int)
    requires id in st.templates && ValidTimeouts(st.templates[id])
    ensures var op := Update(true, id, event, Patch(None, None, None, None, None, Some(0), None, None), now);
            && OpError(st, op) == Some(BadTimeouts)
            && Apply(st, op).templates[id] == st.templates[id].(maxTimeout := 0)
            && !ValidTimeouts(Apply(st, op).templates[id])
  {
  }

  // --- the timeout of an execution ---

  function NormalizeTimeout(requested: int, defaultSec: int, maxSec: int): int {
    var wanted := if requested <= 0 then defaultSec else requested;
    var capped := if maxSec > 0 && wanted > maxSec then maxSec else wanted;
    if capped <= 0 then 10 else capped
  }

  /** The timeout lies between 1 and the template's maximum, for every request,
      exactly when the maximum is positive and the default is positive or the
      fallback of 10 seconds is within the maximum; valid timeouts are, and within
      them a request keeps its own wish up to the maximum. */
  lemma TimeoutIsCappedIff(defaultSec: int, maxSec: int)
    ensures (forall requested :: 1 <= NormalizeTimeout(requested, defaultSec, maxSec) <= maxSec)
      <==> maxSec > 0 && (defaultSec > 0 || maxSec >= 10)
    ensures 0 < defaultSec <= maxSec ==>
      forall requested :: NormalizeTimeout(requested, defaultSec, maxSec)
        == if requested <= 0 then defaultSec else if requested < maxSec then requested else maxSec
  {
    if !(maxSec > 0 && (defaultSec > 0 || maxSec >= 10)) {
      assert !(1 <= NormalizeTimeout(0, defaultSec, maxSec) <= maxSec);
    }
  }

  // --- finding a template ---

  function Resolve(st: State, ref: string): Option<Template> {
    if ref in st.templates then Some(st.templates[ref])
    else if ref in st.nameIds && st.nameIds[ref] in st.templates then Some(st.templates[st.nameIds[ref]])
    else None
  }

  /** A reference finds a template exactly when some template has it as id or as
      name, and what it finds has it as id or as name. */
  lemma ResolveIsExact(st: State, ref: string)
    requires Inv(st)
    ensures Resolve(st, ref).Some? <==> exists id :: id in st.templates && (id == ref || st.templates[id].name == ref)
    ensures Resolve(st, ref).Some? ==> Resolve(st, ref).value.id == ref || Resolve(st, ref).value.name == ref
  {
  }

  /** A template is found under its own name exactly when that name is not the id
      of another template. */
  lemma FoundByNameIff(st: State, id: TemplateId)
    requires Inv(st) && id in st.templates
    ensures var name := st.templates[id].name;
            Resolve(st, name) == Some(st.templates[id]) <==> name == id || name !in st.templates
  {
  }

  function NormalizeAction(action: string): string {
    Dotted(Text.Trim(action))
  }

  function Dotted(s: string): string {
    seq(|s|, i requires 0 <= i < |s| => if s[i] == ':' then '.' else s[i])
  }

  /** An invocation looks its template up under a normalised name; a stored name is
      one that a caller can write, in some spelling, exactly when it is normal. */
  lemma NameIsWritableIff(name: string)
    ensures (exists action :: NormalizeAction(action) == name) <==> Text.Trim(name) == name && ':' !in name
  {
    if Text.Trim(name) == name && ':' !in name {
      assert Dotted(name) == name;
      assert NormalizeAction(name) == name;
    }
    forall action | NormalizeAction(action) == name ensures Text.Trim(name) == name && ':' !in name {
      DottedIsTrimmed(Text.Trim(action), action);
    }
  }

  lemma DottedIsTrimmed(s: string, action: string)
    requires s == Text.Trim(action)
    ensures Text.Trim(Dotted(s)) == Dotted(s) && ':' !in Dotted(s)
  {
    Text.TrimmedIff(s);
    Text.TrimIsTrimmed(action);
    Text.TrimmedIff(Dotted(s));
  }

  /** Some spelling of an action leads an invocation to the template by its name. */
  ghost predicate Invocable(st: State, id: TemplateId)
    requires id in st.templates
  {
    exists action ::
      NormalizeAction(action) == st.templates[id].name && Resolve(st, NormalizeAction(action)) == Some(st.templates[id])
  }

  /** A template whose name is no other one's id is found under its name where a
      reference is looked up as it is, as the direct execution on one node does;
      an invocation normalises its action first, and some spelling of an action
      leads to the name exactly when the name is normal. */
  lemma InvokedByNameIff(st: State, id: TemplateId)
    requires Inv(st) && id in st.templates && st.templates[id].name !in st.templates
    ensures var name := st.templates[id].name;
            && Resolve(st, name) == Some(st.templates[id])
            && (Invocable(st, id) <==> Text.Trim(name) == name && ':' !in name)
  {
    var name := st.templates[id].name;
    FoundByNameIff(st, id);
    NameIsWritableIff(name);
  }

  /** A minted id is normal, so every template can be invoked by its id. */
  lemma InvokedById(st: State, time: nat, count: nat)
    requires RequestIds.NewRequestId("cmdtpl", RequestIds.Digits(time), count) in st.templates
    ensures var id := RequestIds.NewRequestId("cmdtpl", RequestIds.Digits(time), count);
            Resolve(st, NormalizeAction(id)) == Some(st.templates[id])
  {
    var id := RequestIds.NewRequestId("cmdtpl", RequestIds.Digits(time), count);
    assert forall i :: 0 <= i < |id| ==> id[i] != ':';
    assert id[0] == 'c' && RequestIds.IsDigit(id[|id| - 1]);
    Text.TrimmedIff(id);
    assert Dotted(id) == id;
  }
}
