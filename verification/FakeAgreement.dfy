/** The fake store of the responder's tests beside the database it stands for
    (backend/src/postmortem_backend/adapters/fakes.py:182-316, adapters/cockroach.py:22-141):
    where the database would commit, the fake writes the same rows, and where they part. */
module FakeAgreement {
  import opened Contracts
  import opened OperationalStore
  import opened OperationalRules
  import opened FakeStore

  /** The rows the fake keeps of the database's: no versions, no times, and counts of use alone. */
  function Seen(t: Tables): Rows {
    Rows(
      map s | s in t.services :: FakeService(t.services[s].orgId, t.services[s].health, t.services[s].deployId),
      map i | i in t.incidents :: FakeIncident(t.incidents[i].orgId, t.incidents[i].serviceId, t.incidents[i].status, t.incidents[i].runbookId),
      t.deploys, t.episodes, t.actions,
      map r | r in t.runbooks :: t.runbooks[r].usageCount)
  }

  /** The memories of the organisation, which a test seeds as provenance. */
  function Memories(t: Tables, orgId: int): set<int> {
    (set e | e in t.episodes && t.episodes[e].orgId == orgId) + (set r | r in t.runbooks && t.runbooks[r].orgId == orgId)
  }

  /** What the fake does not ask: that the incident is still open, and that a cited runbook is an
      active one of the organisation. */
  predicate StillOpen(t: Tables, c: RemediationCommand)
    requires c.incidentId in t.incidents
  {
    && t.incidents[c.incidentId].status in {Open, Mitigating}
    && (c.runbookId.Some? ==>
          && c.runbookId.value in t.runbooks
          && t.runbooks[c.runbookId.value].orgId == c.orgId && t.runbooks[c.runbookId.value].state == Active)
  }

  /** Both refuse the same commands up front, but for a blank version, which only the adapter
      refuses. */
  lemma RefusalsAgree(c: RemediationCommand, dimensions: nat, blank: string -> bool)
    ensures PassesValidation(c, dimensions) <==>
            Validation(c, dimensions, blank) == None || Validation(c, dimensions, blank) == Some(BlankVersion)
    ensures PassesValidation(c, dimensions) <==>
            c.action in {Rollback, Restart} && (c.requiresApproval ==> c.approved) && dimensions == 1024
  {}

  /** Seeded alike and told not to fail, the fake accepts whatever the database permits, and
      nothing else but commands on a closed incident or under a runbook that is not active. */
  lemma FakePermitsIff(t: Tables, c: RemediationCommand, dimensions: nat)
    requires PassesValidation(c, dimensions)
    ensures Accepts(Seen(t), Memories(t, c.orgId), Nowhere, c, dimensions) && c.incidentId in t.incidents && StillOpen(t, c)
            <==> Permitted(t, c)
    ensures forall failAt :: failAt != Nowhere ==> !Accepts(Seen(t), Memories(t, c.orgId), failAt, c, dimensions)
  {}

  /** Where the database commits, the fake ends with what it would see of the database. */
  lemma FakeWritesTheSame(t: Tables, u: Tables, c: RemediationCommand, ids: NewIds)
    requires Unused(t, ids) && Permitted(t, c) && Wrote(t, u, c, ids)
    ensures TargetsMatch(Seen(t), c)
    ensures AllWritten(Seen(t), c, ids) == Seen(u)
  {
    var after := AllWritten(Seen(t), c, ids);
    assert after.services == Seen(u).services;
    assert after.incidents == Seen(u).incidents;
    assert after.usage.Keys == Seen(u).usage.Keys;
    forall r | r in u.runbooks ensures after.usage[r] == Seen(u).usage[r] {
      assert u.runbooks[r] == t.runbooks[r].(usageCount := t.runbooks[r].usageCount + if c.runbookId == Some(r) then 1 else 0);
    }
    assert after.usage == Seen(u).usage;
  }

  /** How often a runbook was used; one that no test seeded counts from nothing. */
  function UsedSoFar(t: Rows, r: int): int { if r in t.usage then t.usage[r] else 0 }

  lemma UseIsCounted(t: Rows, c: RemediationCommand, ids: NewIds, r: int)
    requires TargetsMatch(t, c)
    ensures UsedSoFar(AllWritten(t, c, ids), r) == UsedSoFar(t, r) + if c.runbookId == Some(r) then 1 else 0
    ensures AllWritten(t, c, ids).usage.Keys == t.usage.Keys + if c.runbookId.Some? then {c.runbookId.value} else {}
  {}

  /** A whole call: with a free key and no fault both commit, and the fake mirrors the database. */
  lemma FakeMirrorsDatabase(t: Tables, c: RemediationCommand, ids: NewIds, dimensions: nat)
    requires Unused(t, ids) && KeyFree(t, c) && Permitted(t, c) && PassesValidation(c, dimensions)
    ensures ExecuteSpec(t, c, ids, NoFault).1 == Committed(ids)
    ensures Accepts(Seen(t), Memories(t, c.orgId), Nowhere, c, dimensions)
    ensures TargetsMatch(Seen(t), c) && AllWritten(Seen(t), c, ids) == Seen(ExecuteSpec(t, c, ids, NoFault).0)
  {
    RemediationWritesIff(t, c, ids, NoFault);
    RemediationWrites(t, c, ids, NoFault);
    FakePermitsIff(t, c, dimensions);
    FakeWritesTheSame(t, ExecuteSpec(t, c, ids, NoFault).0, c, ids);
  }
}
