/** The operational tables and the two statements that write them
    (backend/src/postmortem_backend/adapters/cockroach.py, adapters/outcome.py, with the keys and
    checks of db/migrations/0002_core_schema.sql). Each CTE statement is one serializable
    transaction, so it is one guarded update of all its tables. */
module OperationalStore {
  import opened Contracts

  datatype Health = Healthy | Degraded | Down | Recovering
  datatype IncidentStatus = Open | Mitigating | Resolved | Closed
  datatype RunbookState = Draft | Active | Deprecated
  datatype ActionKind = Rollback | Restart | Scale | FeatureFlag

  datatype Service = Service(orgId: int, health: Health, version: string, deployId: Option<int>)
  datatype Deploy = Deploy(orgId: int, serviceId: int, version: string, action: ActionKind)
  datatype Incident = Incident(
    orgId: int, serviceId: int, status: IncidentStatus, runbookId: Option<int>,
    openedAt: int, resolvedAt: Option<int>, mttrSeconds: Option<int>)
  datatype Runbook = Runbook(orgId: int, state: RunbookState, usageCount: int)

  /** What an episode is about; the last two are the metadata documents written here. */
  datatype Detail =
    | Observation
    | ActionTaken(deployId: int, citedMemoryId: int)
    | OutcomeSeen(actionId: int, outcome: RunbookOutcome)

  datatype Episode = Episode(
    orgId: int, agentId: int, incidentId: int, serviceId: int, runbookId: Option<int>, detail: Detail)

  /** `idempotency_key or "<incident>:<action>:<service>:<version>:<memory>"`; the empty string
      counts as no key. */
  datatype ActionKey =
    | Given(text: string)
    | Derived(incidentId: int, action: ActionKind, serviceId: int, version: string, citedMemoryId: int)

  datatype Action = Action(
    orgId: int, incidentId: int, kind: ActionKind, targetId: int, version: string,
    outcome: RunbookOutcome, memoryRef: int, transactionId: int, key: ActionKey)

  datatype Tables = Tables(
    services: map<int, Service>, incidents: map<int, Incident>, deploys: map<int, Deploy>,
    episodes: map<int, Episode>, actions: map<int, Action>, runbooks: map<int, Runbook>)

  datatype RemediationCommand = RemediationCommand(
    orgId: int, agentId: int, incidentId: int, serviceId: int, action: ActionKind,
    targetVersion: string, citedMemoryId: int, runbookId: Option<int>,
    requiresApproval: bool, approved: bool, idempotencyKey: string)
  {
    function Key(): ActionKey {
      if idempotencyKey != "" then Given(idempotencyKey)
      else Derived(incidentId, action, serviceId, targetVersion, citedMemoryId)
    }
  }

  /** The ids the database generates for one transaction. */
  datatype NewIds = NewIds(deployId: int, eventId: int, actionId: int, transactionId: int)

  /** What the database does with a transaction, besides running it. */
  datatype Fault =
    | NoFault
    | Aborted   // 40001
    | Broken    // any other failure before the commit
    | AckLost   // committed, but the client sees an error

  datatype Remediation =
    | Committed(ids: NewIds)
    | Replayed(ids: NewIds)
    | GateRejected
    | Unsupported | NeedsApproval | BadEmbedding | BlankVersion
    | RolledBack          // AtomicRemediationError
    | SerializationFailed // 40001 on the last attempt
    | Duplicate           // 23505, before the replay lookup

  // ---- remediate_and_record -------------------------------------------------

  predicate Cited(t: Tables, orgId: int, memoryId: int) {
    || (memoryId in t.episodes && t.episodes[memoryId].orgId == orgId)
    || (memoryId in t.runbooks && t.runbooks[memoryId].orgId == orgId)
  }

  predicate TargetOpen(t: Tables, c: RemediationCommand) {
    && c.incidentId in t.incidents && c.serviceId in t.services
    && t.services[c.serviceId].orgId == c.orgId
    && var i := t.incidents[c.incidentId];
       i.orgId == c.orgId && i.serviceId == c.serviceId && (i.status == Open || i.status == Mitigating)
  }

  predicate RunbookAllowed(t: Tables, c: RemediationCommand) {
    c.runbookId.Some? ==>
      && c.runbookId.value in t.runbooks
      && t.runbooks[c.runbookId.value].orgId == c.orgId
      && t.runbooks[c.runbookId.value].state == Active
  }

  predicate Gates(t: Tables, c: RemediationCommand) {
    Cited(t, c.orgId, c.citedMemoryId) && TargetOpen(t, c) && RunbookAllowed(t, c)
  }

  predicate Holds(a: Action, orgId: int, key: ActionKey) { a.orgId == orgId && a.key == key }

  predicate KeyTaken(t: Tables, orgId: int, key: ActionKey) {
    exists a :: a in t.actions && Holds(t.actions[a], orgId, key)
  }

  predicate Unused(t: Tables, ids: NewIds) {
    && ids.deployId !in t.deploys && ids.eventId !in t.episodes && ids.actionId !in t.actions
    && forall a :: a in t.actions ==> t.actions[a].transactionId != ids.transactionId
  }

  function NewEpisode(c: RemediationCommand, ids: NewIds): Episode {
    Episode(c.orgId, c.agentId, c.incidentId, c.serviceId, c.runbookId, ActionTaken(ids.deployId, c.citedMemoryId))
  }

  function NewAction(c: RemediationCommand, ids: NewIds): Action {
    Action(c.orgId, c.incidentId, c.action, c.serviceId, c.targetVersion, Success, ids.eventId, ids.transactionId, c.Key())
  }

  /** Deploy, service, incident, episode, action and runbook usage move together. */
  function Remediated(t: Tables, c: RemediationCommand, ids: NewIds): Tables
    requires Gates(t, c)
  {
    Tables(
      t.services[c.serviceId := Service(c.orgId, Recovering, c.targetVersion, Some(ids.deployId))],
      t.incidents[c.incidentId := t.incidents[c.incidentId].(status := Mitigating, runbookId := c.runbookId)],
      t.deploys[ids.deployId := Deploy(c.orgId, c.serviceId, c.targetVersion, c.action)],
      t.episodes[ids.eventId := NewEpisode(c, ids)],
      t.actions[ids.actionId := NewAction(c, ids)],
      if c.runbookId == None then t.runbooks
      else t.runbooks[c.runbookId.value := t.runbooks[c.runbookId.value].(usageCount := t.runbooks[c.runbookId.value].usageCount + 1)])
  }

  /** The tables and the verdict after one transaction. */
  function ExecuteSpec(t: Tables, c: RemediationCommand, ids: NewIds, fault: Fault): (Tables, Remediation) {
    if fault == Aborted then (t, SerializationFailed)
    else if fault == Broken then (t, RolledBack)
    else if !Gates(t, c) then (t, GateRejected)
    else if KeyTaken(t, c.orgId, c.Key()) then (t, Duplicate)
    else (Remediated(t, c, ids), if fault == AckLost then RolledBack else Committed(ids))
  }

  ghost predicate OneActionPerKey(t: Tables) {
    forall a, b :: (a in t.actions && b in t.actions && Holds(t.actions[b], t.actions[a].orgId, t.actions[a].key))
                   ==> a == b
  }

  /** The ids stored under a key: the action's own, and the deploy its episode names. */
  ghost function StoredIds(t: Tables, orgId: int, key: ActionKey): Option<NewIds> {
    if a :| a in t.actions && Holds(t.actions[a], orgId, key) then IdsOfAction(t, a) else None
  }

  function IdsOfAction(t: Tables, a: int): Option<NewIds>
    requires a in t.actions
  {
    var e := t.actions[a].memoryRef;
    if e in t.episodes && t.episodes[e].orgId == t.actions[a].orgId && t.episodes[e].detail.ActionTaken?
    then Some(NewIds(t.episodes[e].detail.deployId, e, a, t.actions[a].transactionId))
    else None
  }

  lemma StoredIdsAre(t: Tables, a: int)
    requires OneActionPerKey(t) && a in t.actions
    ensures StoredIds(t, t.actions[a].orgId, t.actions[a].key) == IdsOfAction(t, a)
  {
    assert Holds(t.actions[a], t.actions[a].orgId, t.actions[a].key);
  }

  /** The whole call after validation: retry on 40001, replay on 23505. */
  ghost function CallSpec(t: Tables, c: RemediationCommand, ids: NewIds, faults: seq<Fault>, lookupFails: bool): (Tables, Remediation)
    requires faults != []
  {
    var (after, verdict) := ExecuteSpec(t, c, ids, faults[0]);
    if verdict == SerializationFailed && |faults| > 1 then CallSpec(t, c, ids, faults[1..], lookupFails)
    else if verdict == Duplicate then
      var stored := StoredIds(t, c.orgId, c.Key());
      (t, if lookupFails || stored == None then RolledBack else Replayed(stored.value))
    else (after, verdict)
  }

  function Validation(c: RemediationCommand, dimensions: nat, blank: string -> bool): Option<Remediation> {
    if c.action != Rollback && c.action != Restart then Some(Unsupported)
    else if c.requiresApproval && !c.approved then Some(NeedsApproval)
    else if dimensions != EMBEDDING_DIMENSIONS then Some(BadEmbedding)
    else if blank(c.targetVersion) then Some(BlankVersion)
    else None
  }

  // ---- record_outcome -------------------------------------------------------

  datatype OutcomeCommand = OutcomeCommand(
    orgId: int, agentId: int, incidentId: int, serviceId: int, actionId: int,
    outcome: RunbookOutcome, observedAt: int)

  datatype OutcomeVerdict =
    | Recorded(eventId: int, transactionId: int, status: IncidentStatus, replay: bool)
    | Conflict(recorded: RunbookOutcome)
    | OutcomeRejected
    | OutcomeBadEmbedding
    | OutcomeRolledBack
    | OutcomeSerializationFailed

  predicate OutcomeTarget(t: Tables, c: OutcomeCommand) {
    && c.actionId in t.actions && c.incidentId in t.incidents && c.serviceId in t.services
    && (var a := t.actions[c.actionId]; a.orgId == c.orgId && a.incidentId == c.incidentId && a.targetId == c.serviceId)
    && (var i := t.incidents[c.incidentId]; i.orgId == c.orgId && i.serviceId == c.serviceId)
    && t.services[c.serviceId].orgId == c.orgId
  }

  predicate IsOutcomeOf(e: Episode, c: OutcomeCommand) {
    && e.orgId == c.orgId && e.incidentId == c.incidentId && e.serviceId == c.serviceId
    && e.detail.OutcomeSeen? && e.detail.actionId == c.actionId
  }

  predicate OutcomeKnown(t: Tables, c: OutcomeCommand) {
    exists e :: e in t.episodes && IsOutcomeOf(t.episodes[e], c)
  }

  /** A success resolves the incident; the first resolution fixes its time and its MTTR. */
  function Judged(i: Incident, outcome: RunbookOutcome, observedAt: int): Incident {
    if outcome == Success then
      i.(status := Resolved,
         resolvedAt := if i.resolvedAt.Some? then i.resolvedAt else Some(observedAt),
         mttrSeconds := if i.mttrSeconds.Some? then i.mttrSeconds
                        else Some(if observedAt < i.openedAt then 0 else observedAt - i.openedAt))
    else i
  }

  /** The schema's incident_time_order. */
  predicate InTimeOrder(i: Incident) { i.resolvedAt.Some? ==> i.openedAt <= i.resolvedAt.value }

  function OutcomeEpisode(t: Tables, c: OutcomeCommand): Episode
    requires c.incidentId in t.incidents
  {
    Episode(c.orgId, c.agentId, c.incidentId, c.serviceId, t.incidents[c.incidentId].runbookId, OutcomeSeen(c.actionId, c.outcome))
  }

  function WithOutcome(t: Tables, c: OutcomeCommand, eventId: int): Tables
    requires OutcomeTarget(t, c)
  {
    t.(actions := t.actions[c.actionId := t.actions[c.actionId].(outcome := c.outcome)],
       incidents := t.incidents[c.incidentId := Judged(t.incidents[c.incidentId], c.outcome, c.observedAt)],
       episodes := t.episodes[eventId := OutcomeEpisode(t, c)])
  }

  ghost predicate OneOutcomeEach(t: Tables) {
    forall d, e :: (d in t.episodes && e in t.episodes
                    && t.episodes[d].detail.OutcomeSeen? && t.episodes[e].detail.OutcomeSeen?
                    && t.episodes[d].detail.actionId == t.episodes[e].detail.actionId) ==> d == e
  }

  ghost function KnownOutcome(t: Tables, c: OutcomeCommand): int
    requires OutcomeKnown(t, c)
    ensures KnownOutcome(t, c) in t.episodes && IsOutcomeOf(t.episodes[KnownOutcome(t, c)], c)
  {
    var e :| e in t.episodes && IsOutcomeOf(t.episodes[e], c);
    e
  }

  ghost function RecordSpec(t: Tables, c: OutcomeCommand, eventId: int, fault: Fault): (Tables, OutcomeVerdict) {
    if fault == Aborted then (t, OutcomeSerializationFailed)
    else if fault == Broken then (t, OutcomeRolledBack)
    else if !OutcomeTarget(t, c) then (t, OutcomeRejected)
    else
      var transactionId := t.actions[c.actionId].transactionId;
      if OutcomeKnown(t, c) then
        var e := KnownOutcome(t, c);
        var recorded := t.episodes[e].detail.outcome;
        if recorded != c.outcome then (t, Conflict(recorded))
        else if fault == AckLost then (t, OutcomeRolledBack)
        else (t, Recorded(e, transactionId, t.incidents[c.incidentId].status, true))
      else
        var judged := Judged(t.incidents[c.incidentId], c.outcome, c.observedAt);
        if c.outcome == Success && !InTimeOrder(judged) then (t, OutcomeRolledBack)
        else (WithOutcome(t, c, eventId),
              if fault == AckLost then OutcomeRolledBack else Recorded(eventId, transactionId, judged.status, false))
  }

  ghost function RecordCallSpec(t: Tables, c: OutcomeCommand, eventId: int, faults: seq<Fault>): (Tables, OutcomeVerdict)
    requires faults != []
  {
    var (after, verdict) := RecordSpec(t, c, eventId, faults[0]);
    if verdict == OutcomeSerializationFailed && |faults| > 1 then RecordCallSpec(t, c, eventId, faults[1..])
    else (after, verdict)
  }

  // ---- The adapters -----------------------------------------------------------

  class CockroachStore {
    var services: map<int, Service>
    var incidents: map<int, Incident>
    var deploys: map<int, Deploy>
    var episodes: map<int, Episode>
    var actions: map<int, Action>
    var runbooks: map<int, Runbook>

    constructor (t: Tables)
      ensures State() == t
    {
      services, incidents, deploys := t.services, t.incidents, t.deploys;
      episodes, actions, runbooks := t.episodes, t.actions, t.runbooks;
    }

    function State(): Tables
      reads this
    {
      Tables(services, incidents, deploys, episodes, actions, runbooks)
    }

    /** REMEDIATE_AND_RECORD_SQL in one transaction. */
    method ExecuteOnce(c: RemediationCommand, ids: NewIds, fault: Fault) returns (verdict: Remediation)
      modifies this
      ensures (State(), verdict) == ExecuteSpec(old(State()), c, ids, fault)
    {
      if fault == Aborted { return SerializationFailed; }
      if fault == Broken { return RolledBack; }
      var t := State();
      if !Gates(t, c) { return GateRejected; }
      if KeyTaken(t, c.orgId, c.Key()) { return Duplicate; }
      deploys := deploys[ids.deployId := Deploy(c.orgId, c.serviceId, c.targetVersion, c.action)];
      services := services[c.serviceId := Service(c.orgId, Recovering, c.targetVersion, Some(ids.deployId))];
      incidents := incidents[c.incidentId := incidents[c.incidentId].(status := Mitigating, runbookId := c.runbookId)];
      episodes := episodes[ids.eventId := NewEpisode(c, ids)];
      actions := actions[ids.actionId := NewAction(c, ids)];
      if c.runbookId.Some? {
        var r := c.runbookId.value;
        runbooks := runbooks[r := runbooks[r].(usageCount := runbooks[r].usageCount + 1)];
      }
      verdict := if fault == AckLost then RolledBack else Committed(ids);
    }

    /** REPLAY_LOOKUP_SQL; a failing lookup answers nothing. */
    method Replay(orgId: int, key: ActionKey, lookupFails: bool) returns (ids: Option<NewIds>)
      requires OneActionPerKey(State())
      ensures ids == if lookupFails then None else StoredIds(State(), orgId, key)
    {
      ids := None;
      if !lookupFails {
        if a :| a in actions && Holds(actions[a], orgId, key) {
          StoredIdsAre(State(), a);
          ids := IdsOfAction(State(), a);
        }
      }
    }

    /** The retry loop around the transaction; faults[k] befalls attempt k. */
    method RemediateAndRecord(c: RemediationCommand, ids: NewIds, dimensions: nat, blank: string -> bool,
                              faults: seq<Fault>, lookupFails: bool)
      returns (verdict: Remediation)
      requires OneActionPerKey(State())
      requires faults != []
      modifies this
      ensures (State(), verdict) ==
              if Validation(c, dimensions, blank).Some? then (old(State()), Validation(c, dimensions, blank).value)
              else CallSpec(old(State()), c, ids, faults, lookupFails)
    {
      var refusal := Validation(c, dimensions, blank);
      if refusal.Some? { return refusal.value; }
      var attempt := 0;
      while attempt < |faults|
        invariant 0 <= attempt < |faults|
        invariant State() == old(State())
        invariant CallSpec(old(State()), c, ids, faults, lookupFails) == CallSpec(State(), c, ids, faults[attempt..], lookupFails)
      {
        assert faults[attempt..][1..] == faults[attempt + 1..];
        verdict := ExecuteOnce(c, ids, faults[attempt]);
        if verdict == Duplicate {
          var replay := Replay(c.orgId, c.Key(), lookupFails);
          return if replay.Some? then Replayed(replay.value) else RolledBack;
        }
        if verdict != SerializationFailed || attempt >= |faults| - 1 {
          return;
        }
        attempt := attempt + 1;
      }
      assert false;
    }

    /** RECORD_OUTCOME_SQL in one transaction. */
    method RecordOnce(c: OutcomeCommand, eventId: int, fault: Fault) returns (verdict: OutcomeVerdict)
      requires OneOutcomeEach(State())
      modifies this
      ensures (State(), verdict) == RecordSpec(old(State()), c, eventId, fault)
    {
      if fault == Aborted { return OutcomeSerializationFailed; }
      if fault == Broken { return OutcomeRolledBack; }
      var t := State();
      if !OutcomeTarget(t, c) { return OutcomeRejected; }
      var transactionId := actions[c.actionId].transactionId;
      if e :| e in episodes && IsOutcomeOf(episodes[e], c) {
        assert e == KnownOutcome(t, c);
        var recorded := episodes[e].detail.outcome;
        if recorded != c.outcome { return Conflict(recorded); }
        if fault == AckLost { return OutcomeRolledBack; }
        return Recorded(e, transactionId, incidents[c.incidentId].status, true);
      }
      assert !OutcomeKnown(t, c);
      var incident := incidents[c.incidentId];
      var judged := Judged(incident, c.outcome, c.observedAt);
      if c.outcome == Success && !InTimeOrder(judged) { return OutcomeRolledBack; }
      actions := actions[c.actionId := actions[c.actionId].(outcome := c.outcome)];
      incidents := incidents[c.incidentId := judged];
      episodes := episodes[eventId := Episode(c.orgId, c.agentId, c.incidentId, c.serviceId, incident.runbookId,
                                              OutcomeSeen(c.actionId, c.outcome))];
      verdict := if fault == AckLost then OutcomeRolledBack else Recorded(eventId, transactionId, judged.status, false);
    }

    method RecordOutcome(c: OutcomeCommand, eventId: int, dimensions: nat, faults: seq<Fault>) returns (verdict: OutcomeVerdict)
      requires OneOutcomeEach(State())
      requires faults != []
      modifies this
      ensures (State(), verdict) ==
              if dimensions != EMBEDDING_DIMENSIONS then (old(State()), OutcomeBadEmbedding)
              else RecordCallSpec(old(State()), c, eventId, faults)
    {
      if dimensions != EMBEDDING_DIMENSIONS { return OutcomeBadEmbedding; }
      var attempt := 0;
      while attempt < |faults|
        invariant 0 <= attempt < |faults|
        invariant State() == old(State())
        invariant RecordCallSpec(old(State()), c, eventId, faults) == RecordCallSpec(State(), c, eventId, faults[attempt..])
      {
        assert faults[attempt..][1..] == faults[attempt + 1..];
        verdict := RecordOnce(c, eventId, faults[attempt]);
        if verdict != OutcomeSerializationFailed || attempt >= |faults| - 1 {
          return;
        }
        attempt := attempt + 1;
      }
      assert false;
    }
  }
}
