/** The in-memory store of the responder's tests: a copy-on-write transaction with injected
    failures (backend/src/postmortem_backend/adapters/fakes.py:128-316, without auto-seeding). */
module FakeStore {
  import opened Contracts
  import opened OperationalStore

  datatype FakeService = FakeService(orgId: int, health: Health, deployId: Option<int>)
  datatype FakeIncident = FakeIncident(orgId: int, serviceId: int, status: IncidentStatus, runbookId: Option<int>)

  datatype FailPoint = Nowhere | AfterOperationalWrite | DuringMemoryWrite | DuringAuditWrite

  datatype Rows = Rows(
    services: map<int, FakeService>, incidents: map<int, FakeIncident>, deploys: map<int, Deploy>,
    episodes: map<int, Episode>, actions: map<int, Action>, usage: map<int, int>)

  datatype StoreReply = Stored(ids: NewIds) | Refused(error: StoreError)
  datatype StoreError = NotSupported | ApprovalMissing | WrongDimensions | BadTarget | UnknownMemory | Injected

  predicate TargetsMatch(t: Rows, c: RemediationCommand) {
    && c.serviceId in t.services && t.services[c.serviceId].orgId == c.orgId
    && c.incidentId in t.incidents && t.incidents[c.incidentId].orgId == c.orgId
    && t.incidents[c.incidentId].serviceId == c.serviceId
  }

  predicate PassesValidation(c: RemediationCommand, dimensions: nat) {
    (c.action == Rollback || c.action == Restart) && (c.requiresApproval ==> c.approved) && dimensions == EMBEDDING_DIMENSIONS
  }

  predicate Accepts(t: Rows, provenance: set<int>, failAt: FailPoint, c: RemediationCommand, dimensions: nat) {
    PassesValidation(c, dimensions) && TargetsMatch(t, c) && c.citedMemoryId in provenance && failAt == Nowhere
  }

  /** All six tables move, or none. */
  function AllWritten(t: Rows, c: RemediationCommand, ids: NewIds): Rows
    requires TargetsMatch(t, c)
  {
    Rows(
      t.services[c.serviceId := FakeService(c.orgId, Recovering, Some(ids.deployId))],
      t.incidents[c.incidentId := FakeIncident(c.orgId, c.serviceId, Mitigating, c.runbookId)],
      t.deploys[ids.deployId := Deploy(c.orgId, c.serviceId, c.targetVersion, c.action)],
      t.episodes[ids.eventId := NewEpisode(c, ids)],
      t.actions[ids.actionId := NewAction(c, ids)],
      if c.runbookId == None then t.usage
      else t.usage[c.runbookId.value := 1 + if c.runbookId.value in t.usage then t.usage[c.runbookId.value] else 0])
  }

  class FakeAtomicRemediationStore {
    var rows: Rows
    var provenance: set<int>
    var failAt: FailPoint
    var commits: nat
    var rollbacks: nat

    constructor ()
      ensures rows == Rows(map[], map[], map[], map[], map[], map[]) && provenance == {}
      ensures failAt == Nowhere && commits == 0 && rollbacks == 0
    {
      rows := Rows(map[], map[], map[], map[], map[], map[]);
      provenance, failAt, commits, rollbacks := {}, Nowhere, 0, 0;
    }

    method Validate(c: RemediationCommand, dimensions: nat) returns (error: Option<StoreError>)
      ensures error == None <==> PassesValidation(c, dimensions)
      ensures error == Some(NotSupported) <==> c.action !in {Rollback, Restart}
      ensures error == Some(ApprovalMissing) <==> c.action in {Rollback, Restart} && c.requiresApproval && !c.approved
      ensures error.Some? ==> error.value in {NotSupported, ApprovalMissing, WrongDimensions}
    {
      if c.action != Rollback && c.action != Restart { return Some(NotSupported); }
      if c.requiresApproval && !c.approved { return Some(ApprovalMissing); }
      if dimensions != EMBEDDING_DIMENSIONS { return Some(WrongDimensions); }
      error := None;
    }

    /** The staged writes, in the order the code makes them; a failure leaves a half-written copy. */
    method WriteStaged(c: RemediationCommand, ids: NewIds) returns (staged: Rows, error: Option<StoreError>)
      ensures error == None <==> TargetsMatch(rows, c) && c.citedMemoryId in provenance && failAt == Nowhere
      ensures error == None ==> staged == AllWritten(rows, c, ids)
      ensures error == Some(BadTarget) <==> !TargetsMatch(rows, c)
      ensures error == Some(UnknownMemory) <==> TargetsMatch(rows, c) && c.citedMemoryId !in provenance
      ensures error.Some? ==> error.value in {BadTarget, UnknownMemory, Injected}
    {
      staged := rows;
      if c.serviceId !in staged.services || staged.services[c.serviceId].orgId != c.orgId { return staged, Some(BadTarget); }
      if c.incidentId !in staged.incidents || staged.incidents[c.incidentId].orgId != c.orgId
         || staged.incidents[c.incidentId].serviceId != c.serviceId { return staged, Some(BadTarget); }
      if c.citedMemoryId !in provenance { return staged, Some(UnknownMemory); }
      staged := staged.(deploys := staged.deploys[ids.deployId := Deploy(c.orgId, c.serviceId, c.targetVersion, c.action)]);
      staged := staged.(services := staged.services[c.serviceId := staged.services[c.serviceId].(health := Recovering, deployId := Some(ids.deployId))]);
      staged := staged.(incidents := staged.incidents[c.incidentId := staged.incidents[c.incidentId].(status := Mitigating, runbookId := c.runbookId)]);
      if failAt == AfterOperationalWrite { return staged, Some(Injected); }
      staged := staged.(episodes := staged.episodes[ids.eventId := NewEpisode(c, ids)]);
      if failAt == DuringMemoryWrite { return staged, Some(Injected); }
      staged := staged.(actions := staged.actions[ids.actionId := NewAction(c, ids)]);
      if failAt == DuringAuditWrite { return staged, Some(Injected); }
      if c.runbookId.Some? {
        var used := if c.runbookId.value in staged.usage then staged.usage[c.runbookId.value] else 0;
        staged := staged.(usage := staged.usage[c.runbookId.value := used + 1]);
      }
      error := None;
    }

    /** One transaction: all tables or none, at every failure point. */
    method RemediateAndRecord(c: RemediationCommand, ids: NewIds, dimensions: nat) returns (reply: StoreReply)
      modifies this
      ensures provenance == old(provenance) && failAt == old(failAt)
      ensures reply.Stored? <==> Accepts(old(rows), provenance, failAt, c, dimensions)
      ensures reply.Stored? ==>
                reply.ids == ids && rows == AllWritten(old(rows), c, ids)
                && commits == old(commits) + 1 && rollbacks == old(rollbacks)
      ensures reply.Refused? ==>
                && (reply.error in {NotSupported, ApprovalMissing, WrongDimensions} <==> !PassesValidation(c, dimensions))
                && (reply.error == BadTarget <==> PassesValidation(c, dimensions) && !TargetsMatch(old(rows), c))
                && (reply.error == UnknownMemory <==>
                      PassesValidation(c, dimensions) && TargetsMatch(old(rows), c) && c.citedMemoryId !in provenance)
      ensures reply.Refused? ==>
                rows == old(rows) && commits == old(commits)
                && rollbacks == old(rollbacks) + if PassesValidation(c, dimensions) then 1 else 0
    {
      var refusal := Validate(c, dimensions);
      if refusal.Some? { return Refused(refusal.value); }
      var staged, error := WriteStaged(c, ids);
      if error.Some? {
        rollbacks := rollbacks + 1;
        return Refused(error.value);
      }
      rows := staged;
      commits := commits + 1;
      reply := Stored(ids);
    }
  }
}
