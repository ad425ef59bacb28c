/** What a remediation and an outcome must have met before they commit, and what they leave,
    said of the rows alone (backend/src/postmortem_backend/adapters/cockroach.py:22-141,
    adapters/outcome.py:15-143). */
module OperationalRules {
  import opened Contracts
  import opened OperationalStore
  import opened OperationalHistory

  // ---- When a remediation commits -------------------------------------------------

  /** The cited memory is the organisation's; the incident is the organisation's, the service's
      and still open; the service is the organisation's; and a cited runbook is an active one of
      the organisation. */
  predicate Permitted(t: Tables, c: RemediationCommand) {
    && ((c.citedMemoryId in t.episodes && t.episodes[c.citedMemoryId].orgId == c.orgId)
        || (c.citedMemoryId in t.runbooks && t.runbooks[c.citedMemoryId].orgId == c.orgId))
    && c.incidentId in t.incidents
    && t.incidents[c.incidentId].orgId == c.orgId && t.incidents[c.incidentId].serviceId == c.serviceId
    && t.incidents[c.incidentId].status in {Open, Mitigating}
    && c.serviceId in t.services && t.services[c.serviceId].orgId == c.orgId
    && (c.runbookId.Some? ==>
          && c.runbookId.value in t.runbooks
          && t.runbooks[c.runbookId.value].orgId == c.orgId && t.runbooks[c.runbookId.value].state == Active)
  }

  /** No action of the organisation is stored under the command's key. */
  predicate KeyFree(t: Tables, c: RemediationCommand) {
    forall a :: a in t.actions ==> !(t.actions[a].orgId == c.orgId && t.actions[a].key == c.Key())
  }

  /** Two commands share a key exactly when they give the same text, or give none and agree on
      incident, action, service, version and cited memory. */
  lemma KeysCoincideIff(c: RemediationCommand, d: RemediationCommand)
    ensures c.Key() == d.Key() <==>
            if c.idempotencyKey != "" || d.idempotencyKey != "" then c.idempotencyKey == d.idempotencyKey
            else && c.incidentId == d.incidentId && c.action == d.action && c.serviceId == d.serviceId
                 && c.targetVersion == d.targetVersion && c.citedMemoryId == d.citedMemoryId
  {}

  /** The transaction ran to its commit. */
  predicate Ran(fault: Fault) { fault == NoFault || fault == AckLost }

  /** A remediation writes exactly when it is permitted and its key is free; otherwise it leaves
      every table alone, and its answer says why. */
  lemma RemediationWritesIff(t: Tables, c: RemediationCommand, ids: NewIds, fault: Fault)
    requires Unused(t, ids)
    ensures var (u, verdict) := ExecuteSpec(t, c, ids, fault);
            && u == Step(t, Act(c, ids, fault))
            && (u.actions.Keys != t.actions.Keys <==> Ran(fault) && Permitted(t, c) && KeyFree(t, c))
            && (u.actions.Keys == t.actions.Keys ==> u == t)
            && (verdict == Committed(ids) <==> fault == NoFault && Permitted(t, c) && KeyFree(t, c))
            && (verdict == GateRejected <==> Ran(fault) && !Permitted(t, c))
            && (verdict == Duplicate <==> Ran(fault) && Permitted(t, c) && !KeyFree(t, c))
            && (verdict == SerializationFailed <==> fault == Aborted)
  {
    var u := ExecuteSpec(t, c, ids, fault).0;
    assert Gates(t, c) <==> Permitted(t, c);
    assert KeyTaken(t, c.orgId, c.Key()) <==> !KeyFree(t, c);
    if u != t { assert ids.actionId in u.actions.Keys; }
  }

  /** The six rows of one remediation. */
  ghost predicate Wrote(t: Tables, u: Tables, c: RemediationCommand, ids: NewIds) {
    && c.serviceId in u.services && u.services == t.services[c.serviceId := u.services[c.serviceId]]
    && u.services[c.serviceId] == Service(c.orgId, Recovering, c.targetVersion, Some(ids.deployId))
    && c.incidentId in t.incidents && c.incidentId in u.incidents
    && u.incidents == t.incidents[c.incidentId := u.incidents[c.incidentId]]
    && u.incidents[c.incidentId] == t.incidents[c.incidentId].(status := Mitigating, runbookId := c.runbookId)
    && ids.deployId in u.deploys && u.deploys == t.deploys[ids.deployId := u.deploys[ids.deployId]]
    && u.deploys[ids.deployId] == Deploy(c.orgId, c.serviceId, c.targetVersion, c.action)
    && ids.eventId in u.episodes && u.episodes == t.episodes[ids.eventId := u.episodes[ids.eventId]]
    && u.episodes[ids.eventId] == Episode(c.orgId, c.agentId, c.incidentId, c.serviceId, c.runbookId,
                                          ActionTaken(ids.deployId, c.citedMemoryId))
    && ids.actionId in u.actions && u.actions == t.actions[ids.actionId := u.actions[ids.actionId]]
    && u.actions[ids.actionId] == Action(c.orgId, c.incidentId, c.action, c.serviceId, c.targetVersion,
                                         Success, ids.eventId, ids.transactionId, c.Key())
    && u.runbooks.Keys == t.runbooks.Keys
    && forall r :: r in t.runbooks ==>
         u.runbooks[r] == t.runbooks[r].(usageCount := t.runbooks[r].usageCount + if c.runbookId == Some(r) then 1 else 0)
  }

  lemma RemediationWrites(t: Tables, c: RemediationCommand, ids: NewIds, fault: Fault)
    requires Unused(t, ids)
    ensures var u := Step(t, Act(c, ids, fault)); u.actions.Keys != t.actions.Keys ==> Wrote(t, u, c, ids)
  {}

  // ---- When an outcome is recorded ---------------------------------------------------

  /** The action is the organisation's, on this incident and this service, and both are its. */
  predicate Concerns(t: Tables, c: OutcomeCommand) {
    && c.actionId in t.actions && c.incidentId in t.incidents && c.serviceId in t.services
    && t.actions[c.actionId].orgId == c.orgId && t.actions[c.actionId].incidentId == c.incidentId
    && t.actions[c.actionId].targetId == c.serviceId
    && t.incidents[c.incidentId].orgId == c.orgId && t.incidents[c.incidentId].serviceId == c.serviceId
    && t.services[c.serviceId].orgId == c.orgId
  }

  /** A success resolves the incident, and the first one settles when and how fast. */
  ghost predicate Settled(before: Incident, after: Incident, observedAt: int) {
    && after.status == Resolved
    && after == before.(status := after.status, resolvedAt := after.resolvedAt, mttrSeconds := after.mttrSeconds)
    && after.resolvedAt == (if before.resolvedAt.Some? then before.resolvedAt else Some(observedAt))
    && (before.mttrSeconds.Some? ==> after.mttrSeconds == before.mttrSeconds)
    && (before.mttrSeconds.None? ==>
          after.mttrSeconds == Some(if observedAt < before.openedAt then 0 else observedAt - before.openedAt))
  }

  /** The three rows of one outcome. */
  ghost predicate Told(t: Tables, u: Tables, c: OutcomeCommand, eventId: int) {
    && u.services == t.services && u.deploys == t.deploys && u.runbooks == t.runbooks
    && c.actionId in t.actions && c.actionId in u.actions && u.actions == t.actions[c.actionId := u.actions[c.actionId]]
    && u.actions[c.actionId] == t.actions[c.actionId].(outcome := c.outcome)
    && eventId in u.episodes && u.episodes == t.episodes[eventId := u.episodes[eventId]]
    && c.incidentId in t.incidents && c.incidentId in u.incidents
    && u.episodes[eventId] == Episode(c.orgId, c.agentId, c.incidentId, c.serviceId,
                                      t.incidents[c.incidentId].runbookId, OutcomeSeen(c.actionId, c.outcome))
    && u.incidents == t.incidents[c.incidentId := u.incidents[c.incidentId]]
    && (if c.outcome == Success then Settled(t.incidents[c.incidentId], u.incidents[c.incidentId], c.observedAt)
        else u.incidents[c.incidentId] == t.incidents[c.incidentId])
  }

  lemma OutcomeTells(base: Tables, t: Tables, c: OutcomeCommand, eventId: int, fault: Fault)
    requires Sound(base, t) && eventId !in t.episodes
    ensures var (u, verdict) := RecordSpec(t, c, eventId, fault);
            && u == Step(t, Judge(c, eventId, fault))
            && (u != t ==> Ran(fault) && Concerns(t, c) && Told(t, u, c, eventId))
            && (verdict == OutcomeRejected <==> Ran(fault) && !Concerns(t, c))
            && (verdict == OutcomeSerializationFailed <==> fault == Aborted)
            && (verdict.Recorded? ==> fault == NoFault && verdict.transactionId == t.actions[c.actionId].transactionId
                                      && verdict.status == u.incidents[c.incidentId].status)
  {
    assert OutcomeTarget(t, c) <==> Concerns(t, c);
  }

  // ---- What the tables keep of it ---------------------------------------------------

  /** Every action episode cites an active runbook of its organisation, or none. */
  ghost predicate CitesActive(t: Tables) {
    forall e :: e in t.episodes && t.episodes[e].detail.ActionTaken? && t.episodes[e].runbookId.Some? ==>
      var r := t.episodes[e].runbookId.value;
      r in t.runbooks && t.runbooks[r].orgId == t.episodes[e].orgId && t.runbooks[r].state == Active
  }

  /** A service is as it was, or recovers under the version of a deploy of its own. */
  ghost predicate ServicesFollow(base: Tables, t: Tables) {
    && t.services.Keys == base.services.Keys
    && forall s :: s in t.services && t.services[s] != base.services[s] ==>
         && t.services[s].health == Recovering && t.services[s].deployId.Some?
         && var d := t.services[s].deployId.value;
            d in t.deploys && t.deploys[d].serviceId == s && t.deploys[d].version == t.services[s].version
            && t.deploys[d].orgId == t.services[s].orgId == base.services[s].orgId
  }

  ghost predicate Followed(base: Tables, t: Tables) { CitesActive(t) && ServicesFollow(base, t) }

  lemma WroteKeepsFollowed(base: Tables, t: Tables, u: Tables, c: RemediationCommand, ids: NewIds)
    requires Followed(base, t) && Permitted(t, c) && Unused(t, ids) && Wrote(t, u, c, ids)
    ensures Followed(base, u)
  {}

  lemma ToldKeepsFollowed(base: Tables, t: Tables, u: Tables, c: OutcomeCommand, eventId: int)
    requires Followed(base, t) && eventId !in t.episodes && Told(t, u, c, eventId)
    ensures Followed(base, u)
  {}

  lemma StepKeepsFollowed(base: Tables, t: Tables, op: Op)
    requires Sound(base, t) && Fresh(t, op) && Followed(base, t)
    ensures Followed(base, Step(t, op))
  {
    if Step(t, op) != t {
      match op
      case Act(c, ids, fault) =>
        RemediationWritesIff(t, c, ids, fault);
        RemediationWrites(t, c, ids, fault);
        WroteKeepsFollowed(base, t, Step(t, op), c, ids);
      case Judge(c, eventId, fault) =>
        OutcomeTells(base, t, c, eventId, fault);
        ToldKeepsFollowed(base, t, Step(t, op), c, eventId);
    }
  }

  /** After any transactions: only active runbooks were ever cited, and every service that was
      touched recovers under the version of one of its own deploys. */
  lemma {:induction false} EveryHistoryFollows(base: Tables, ops: seq<Op>)
    requires Untouched(base) && Legal(base, ops)
    ensures Followed(base, Run(base, ops))
  {
    if ops != [] {
      EveryHistoryFollows(base, ops[..|ops| - 1]);
      EveryHistoryIsSound(base, ops[..|ops| - 1]);
      StepKeepsFollowed(base, Run(base, ops[..|ops| - 1]), ops[|ops| - 1]);
    }
  }

  // ---- The retries --------------------------------------------------------------------

  /** Attempt k is the first that is not aborted, or the last of all. */
  predicate Decides(faults: seq<Fault>, k: nat) {
    k < |faults| && (forall j :: 0 <= j < k ==> faults[j] == Aborted) && (faults[k] != Aborted || k == |faults| - 1)
  }

  /** A call ends as its deciding attempt does: it gives up on serialization exactly when every
      attempt was aborted. */
  lemma {:induction false} RemediationRetries(t: Tables, c: RemediationCommand, ids: NewIds, faults: seq<Fault>, lookupFails: bool, k: nat)
    requires Decides(faults, k)
    ensures CallSpec(t, c, ids, faults, lookupFails) == CallSpec(t, c, ids, [faults[k]], lookupFails)
    ensures CallSpec(t, c, ids, faults, lookupFails).1 == SerializationFailed <==> faults[k] == Aborted
    decreases k
  {
    if k > 0 {
      assert faults[1..][k - 1] == faults[k];
      RemediationRetries(t, c, ids, faults[1..], lookupFails, k - 1);
    } else {
      RemediationOnce(t, c, ids, faults, lookupFails);
    }
  }

  lemma RemediationOnce(t: Tables, c: RemediationCommand, ids: NewIds, faults: seq<Fault>, lookupFails: bool)
    requires faults != [] && (faults[0] == Aborted ==> |faults| == 1)
    ensures CallSpec(t, c, ids, faults, lookupFails) == CallSpec(t, c, ids, [faults[0]], lookupFails)
    ensures CallSpec(t, c, ids, faults, lookupFails).1 == SerializationFailed <==> faults[0] == Aborted
  {}

  lemma {:induction false} OutcomeRetries(t: Tables, c: OutcomeCommand, eventId: int, faults: seq<Fault>, k: nat)
    requires Decides(faults, k)
    ensures RecordCallSpec(t, c, eventId, faults) == RecordSpec(t, c, eventId, faults[k])
    decreases k
  {
    if k > 0 {
      assert faults[1..][k - 1] == faults[k];
      OutcomeRetries(t, c, eventId, faults[1..], k - 1);
    }
  }

  /** What the adapter lets through to the database. */
  lemma ValidationPassesIff(c: RemediationCommand, dimensions: nat, blank: string -> bool)
    ensures Validation(c, dimensions, blank) == None <==>
            && c.action in {Rollback, Restart} && (c.requiresApproval ==> c.approved)
            && dimensions == 1024 && !blank(c.targetVersion)
    ensures Validation(c, dimensions, blank) == Some(Unsupported) <==> c.action in {Scale, FeatureFlag}
    ensures Validation(c, dimensions, blank) == Some(NeedsApproval) <==> c.action in {Rollback, Restart} && c.requiresApproval && !c.approved
    ensures Validation(c, dimensions, blank) == Some(BlankVersion) ==> dimensions == 1024 && blank(c.targetVersion)
    ensures Validation(c, dimensions, blank) == Some(BadEmbedding) ==> dimensions != 1024
    ensures Validation(c, dimensions, blank).Some? ==>
              Validation(c, dimensions, blank).value in {Unsupported, NeedsApproval, BadEmbedding, BlankVersion}
  {}

  // ---- The time to resolve ------------------------------------------------------------

  /** No incident has been resolved yet. */
  ghost predicate Unresolved(base: Tables) {
    forall i :: i in base.incidents ==> base.incidents[i].resolvedAt == None && base.incidents[i].mttrSeconds == None
  }

  /** When the incident was first told resolved: the instant of the first success recorded. */
  ghost function FirstSuccess(base: Tables, ops: seq<Op>, incident: int): Option<int> {
    if ops == [] then None
    else
      var front, last := ops[..|ops| - 1], ops[|ops| - 1];
      var before := FirstSuccess(base, front, incident);
      if before.Some? then before
      else if last.Judge? && last.outcome.outcome == Success && last.outcome.incidentId == incident
              && Step(Run(base, front), last) != Run(base, front)
      then Some(last.outcome.observedAt)
      else None
  }

  ghost predicate TimesTell(t: Tables, i: int, first: Option<int>) {
    i in t.incidents ==>
      && t.incidents[i].resolvedAt == first
      && (first == None ==> t.incidents[i].mttrSeconds == None)
      && (first.Some? ==> t.incidents[i].mttrSeconds == Some(first.value - t.incidents[i].openedAt))
  }

  lemma ToldKeepsTimes(t: Tables, u: Tables, c: OutcomeCommand, eventId: int, i: int, first: Option<int>)
    requires Told(t, u, c, eventId) && TimesTell(t, i, first)
    requires forall k :: k in u.incidents ==> InTimeOrder(u.incidents[k])
    ensures TimesTell(u, i, if first == None && c.outcome == Success && c.incidentId == i then Some(c.observedAt) else first)
  {}

  lemma StepKeepsTimes(base: Tables, t: Tables, op: Op, i: int, first: Option<int>)
    requires Sound(base, t) && Fresh(t, op) && TimesTell(t, i, first)
    ensures TimesTell(Step(t, op), i,
                      if first.Some? then first
                      else if op.Judge? && op.outcome.outcome == Success && op.outcome.incidentId == i && Step(t, op) != t
                      then Some(op.outcome.observedAt) else None)
  {
    if Step(t, op) != t {
      match op
      case Act(c, ids, fault) => RemediationWritesIff(t, c, ids, fault); RemediationWrites(t, c, ids, fault);
      case Judge(c, eventId, fault) =>
        OutcomeTells(base, t, c, eventId, fault);
        InOrderAfter(base, t, op);
        ToldKeepsTimes(t, Step(t, op), c, eventId, i, first);
    }
  }

  lemma InOrderAfter(base: Tables, t: Tables, op: Op)
    requires Sound(base, t) && Fresh(t, op)
    ensures forall k :: k in Step(t, op).incidents ==> InTimeOrder(Step(t, op).incidents[k])
  {
    StepKeepsSound(base, t, op);
    forall k | k in Step(t, op).incidents ensures InTimeOrder(Step(t, op).incidents[k]) {
      assert OperationalHistory.Timed(Step(t, op).incidents[k]);
    }
  }

  /** In every history an incident is resolved at the instant of the first success recorded for
      it, and its MTTR is the time from its opening to that instant. */
  lemma {:induction false} MttrIsTimeToFirstSuccess(base: Tables, ops: seq<Op>, i: int)
    requires Untouched(base) && Unresolved(base) && Legal(base, ops)
    ensures TimesTell(Run(base, ops), i, FirstSuccess(base, ops, i))
  {
    if ops != [] {
      var front := ops[..|ops| - 1];
      MttrIsTimeToFirstSuccess(base, front, i);
      EveryHistoryIsSound(base, front);
      StepKeepsTimes(base, Run(base, front), ops[|ops| - 1], i, FirstSuccess(base, front, i));
    }
  }
}
