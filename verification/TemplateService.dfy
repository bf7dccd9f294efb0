/** The template half of the admin service at center: records that are patched in
    place, and the index of their names. */
module TemplateService {
  import opened Tunnel
  import opened Schemas
  import opened Templates
  import Text

  class TemplateRecord {
    const id: TemplateId
    const name: string
    const command: string
    var description: string
    var risk: string
    var targetOS: seq<string>
    var schema: Fields
    var defaultTimeout: int
    var maxTimeout: int
    var maxOutput: int
    var enabled: bool
    var updatedAt: int

    constructor (id: TemplateId, req: CreateRequest, now: int)
      ensures this.id == id && View() == Built(id, req, now)
    {
      this.id, name, command, description, risk, targetOS := id, req.name, req.command, req.description, req.risk,
        req.targetOS;
      schema, defaultTimeout, maxTimeout := req.schema, req.defaultTimeout, req.maxTimeout;
      maxOutput := if req.maxOutput <= 0 then DEFAULT_OUTPUT else req.maxOutput;
      enabled, updatedAt := true, now;
    }

    function View(): Template
      reads this
    {
      Template(id, name, description, risk, targetOS, command, schema, defaultTimeout, maxTimeout, maxOutput, enabled,
        updatedAt)
    }

    /** Writes the patch into the record field by field and stops at the first
        check that fails; what is written stays written. */
    method Patch(patch: Templates.Patch, now: int) returns (err: Option<Error>)
      modifies this
      ensures View() == Patched(old(View()), patch, now)
      ensures err == PatchError(old(View()), patch)
    {
      err := WriteHead(patch);
      if err.Some? {
        return;
      }
      if patch.schema.Some? {
        var ok := ValidateSchema(patch.schema.value);
        if !ok {
          return Some(BadRequest);
        }
        schema := patch.schema.value;
      }
      WriteLimits(patch);
      if defaultTimeout <= 0 || maxTimeout <= 0 || defaultTimeout > maxTimeout {
        return Some(BadTimeouts);
      }
      updatedAt := now;
      err := None;
    }

    method WriteHead(patch: Templates.Patch) returns (err: Option<Error>)
      modifies this
      ensures patch.risk.Some? && !ValidRisk(patch.risk.value) ==>
        err == Some(BadRequest) && View() == Described(old(View()), patch)
      ensures !(patch.risk.Some? && !ValidRisk(patch.risk.value)) ==>
        err == None && View() == Classified(old(View()), patch)
    {
      if patch.description.Some? {
        description := patch.description.value;
      }
      if patch.risk.Some? {
        if !ValidRisk(patch.risk.value) {
          return Some(BadRequest);
        }
        risk := patch.risk.value;
      }
      if patch.targetOS.Some? {
        targetOS := patch.targetOS.value;
      }
      err := None;
    }

    method WriteLimits(patch: Templates.Patch)
      modifies this
      ensures View() == old(View()).(
        defaultTimeout := Or(patch.defaultTimeout, old(defaultTimeout)),
          maxTimeout := Or(patch.maxTimeout, old(maxTimeout)),
        maxOutput := Or(patch.maxOutput, old(maxOutput)), enabled := Or(patch.enabled, old(enabled)))
    {
      if patch.defaultTimeout.Some? {
        defaultTimeout := patch.defaultTimeout.value;
      }
      if patch.maxTimeout.Some? {
        maxTimeout := patch.maxTimeout.value;
      }
      if patch.maxOutput.Some? {
        maxOutput := patch.maxOutput.value;
      }
      if patch.enabled.Some? {
        enabled := patch.enabled.value;
      }
    }
  }

  class Service {
    var templates: map<TemplateId, TemplateRecord>
    var templateNameIds: map<string, TemplateId>
    var audits: map<EventId, Note>

    ghost predicate Valid()
      reads this, templates.Values
    {
      && KeysAreIds()
      && Inv(Snapshot())
    }

    predicate KeysAreIds()
      reads this`templates
    {
      forall id :: id in templates ==> templates[id].id == id
    }

    function Snapshot(): State
      reads this, templates.Values
    {
      State(map id | id in templates :: templates[id].View(), templateNameIds, audits)
    }

    constructor ()
      ensures Valid() && Snapshot() == EMPTY
    {
      templates, templateNameIds, audits := map[], map[], map[];
    }

    /** `id` and `event` are minted ids. */
    method CreateTemplate(admin: bool, id: TemplateId, event: EventId, req: CreateRequest, now: int)
      returns (err: Option<Error>, view: Template)
      requires Valid() && id !in templates && event !in audits
      modifies this
      ensures Valid() && Snapshot() == Apply(old(Snapshot()), Create(admin, id, event, req, now))
      ensures err == CreateError(old(Snapshot()), admin, req)
      ensures err.None? ==> id in Snapshot().templates && view == Snapshot().templates[id]
    {
      ghost var was := Snapshot();
      CreateKeeps(was, Create(admin, id, event, req, now));
      view := Built(id, req, now);
      if !admin {
        return Some(Forbidden), view;
      }
      err := BuildTemplate(req);
      if err.Some? {
        return;
      }
      if req.name in templateNameIds {
        return Some(Conflict), view;
      }
      Add(id, event, req, now);
      err := None;
    }

    method Add(id: TemplateId, event: EventId, req: CreateRequest, now: int)
      requires KeysAreIds() && id !in templates
      modifies this
      ensures KeysAreIds()
      ensures Snapshot() ==
        State(old(Snapshot()).templates[id := Built(id, req, now)], old(templateNameIds)[req.name := id],
                                  old(audits)[event := Note(req.name, req.risk, "created")])
    {
      var record := new TemplateRecord(id, req, now);
      templates := templates[id := record];
      templateNameIds := templateNameIds[req.name := id];
      audits := audits[event := Note(req.name, req.risk, "created")];
    }

    method UpdateTemplate(admin: bool, id: TemplateId, event: EventId, patch: Patch, now: int)
      returns (err: Option<Error>)
      requires Valid() && event !in audits
      modifies this`audits, templates.Values
      ensures Valid() && Snapshot() == Apply(old(Snapshot()), Update(admin, id, event, patch, now))
      ensures err == OpError(old(Snapshot()), Update(admin, id, event, patch, now))
    {
      UpdateKeeps(Snapshot(), Update(admin, id, event, patch, now));
      if !admin {
        return Some(Forbidden);
      }
      if id !in templates {
        return Some(NotFound);
      }
      err := PatchAndAudit(id, event, patch, now);
    }

    method PatchAndAudit(id: TemplateId, event: EventId, patch: Patch, now: int) returns (err: Option<Error>)
      requires KeysAreIds() && id in templates
      modifies this`audits, templates[id]
      ensures KeysAreIds() && id in old(Snapshot()).templates
      ensures var was := old(Snapshot());
              var t := Patched(was.templates[id], patch, now);
              && err == PatchError(was.templates[id], patch)
              && Snapshot() == State(was.templates[id := t], was.nameIds,
                                     if err.Some? then was.audits
                                       else was.audits[event := Note(t.name, t.risk, "updated")])
    {
      err := PatchRecord(id, patch, now);
      if err.None? {
        audits := audits[event := Note(templates[id].name, templates[id].risk, "updated")];
      }
    }

    method PatchRecord(id: TemplateId, patch: Patch, now: int) returns (err: Option<Error>)
      requires KeysAreIds() && id in templates
      modifies templates[id]
      ensures id in old(Snapshot()).templates
      ensures Snapshot() ==
        old(Snapshot()).(templates :=
          old(Snapshot()).templates[id := Patched(old(Snapshot()).templates[id], patch, now)])
      ensures err == PatchError(old(Snapshot()).templates[id], patch)
      ensures Patched(old(Snapshot()).templates[id], patch, now) == templates[id].View()
    {
      err := templates[id].Patch(patch, now);
    }

    method ResolveTemplate(ref: string) returns (t: Option<Template>)
      ensures t == Resolve(Snapshot(), ref)
    {
      if ref in templates {
        return Some(templates[ref].View());
      }
      if ref in templateNameIds {
        var id := templateNameIds[ref];
        if id in templates {
          return Some(templates[id].View());
        }
      }
      t := None;
    }
  }

  /** The checks of a request, in the order in which they are made. */
  method BuildTemplate(req: CreateRequest) returns (err: Option<Error>)
    ensures err == BuildError(req)
    ensures err.None? ==> forall id, now :: Sound(Built(id, req, now)) && ValidTimeouts(Built(id, req, now))
  {
    if Text.Trim(req.name) == "" {
      return Some(BadRequest);
    }
    if !ValidRisk(req.risk) {
      return Some(BadRequest);
    }
    if req.executorType != "process" {
      return Some(BadRequest);
    }
    if !IsAbs(req.command) {
      return Some(BadRequest);
    }
    var ok := ValidateSchema(req.schema);
    if !ok {
      return Some(BadRequest);
    }
    if req.defaultTimeout <= 0 || req.maxTimeout <= 0 || req.defaultTimeout > req.maxTimeout {
      return Some(BadTimeouts);
    }
    err := None;
  }
}
