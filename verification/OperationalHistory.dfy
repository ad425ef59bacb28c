/** What holds of the operational tables after any interleaving of remediation and outcome
    transactions, committed, aborted or with their acknowledgement lost. */
module OperationalHistory {
  import opened Contracts
  import opened OperationalStore

  datatype Op =
    | Act(command: RemediationCommand, ids: NewIds, fault: Fault)
    | Judge(outcome: OutcomeCommand, eventId: int, fault: Fault)

  ghost function Step(t: Tables, op: Op): Tables {
    match op
    case Act(c, ids, fault) => ExecuteSpec(t, c, ids, fault).0
    case Judge(c, eventId, fault) => RecordSpec(t, c, eventId, fault).0
  }

  /** Generated ids are new. */
  predicate Fresh(t: Tables, op: Op) {
    match op
    case Act(_, ids, _) => Unused(t, ids)
    case Judge(_, eventId, _) => eventId !in t.episodes
  }

  ghost function Run(t: Tables, ops: seq<Op>): Tables {
    if ops == [] then t else Step(Run(t, ops[..|ops| - 1]), ops[|ops| - 1])
  }

  ghost predicate Legal(t: Tables, ops: seq<Op>) {
    ops == [] || (Legal(t, ops[..|ops| - 1]) && Fresh(Run(t, ops[..|ops| - 1]), ops[|ops| - 1]))
  }

  // ---- The invariants ---------------------------------------------------------

  predicate IsAction(e: Episode) { e.detail.ActionTaken? }

  ghost function ActionEpisodes(t: Tables): set<int> {
    set e | e in t.episodes && IsAction(t.episodes[e])
  }

  /** The action row, the episode it references and the deploy that episode names agree. */
  ghost predicate Tells(t: Tables, a: int)
    requires a in t.actions
  {
    var x := t.actions[a];
    && x.memoryRef in t.episodes && IsAction(t.episodes[x.memoryRef])
    && var e := t.episodes[x.memoryRef];
       && e.orgId == x.orgId && e.incidentId == x.incidentId && e.serviceId == x.targetId
       && e.detail.deployId in t.deploys
       && t.deploys[e.detail.deployId] == Deploy(x.orgId, x.targetId, x.version, x.kind)
  }

  ghost predicate RowsTell(t: Tables) {
    && (forall a :: a in t.actions ==> Tells(t, a))
    && (forall a, b :: (a in t.actions && b in t.actions && t.actions[a].memoryRef == t.actions[b].memoryRef) ==> a == b)
  }

  ghost predicate EpisodesTell(t: Tables) {
    && (forall e :: e in ActionEpisodes(t) ==> RowFor(t, e))
    && (forall e, f :: (e in ActionEpisodes(t) && f in ActionEpisodes(t) && SameDeploy(t, e, f)) ==> e == f)
  }

  ghost predicate SameDeploy(t: Tables, e: int, f: int)
    requires e in ActionEpisodes(t) && f in ActionEpisodes(t)
  {
    t.episodes[e].detail.deployId == t.episodes[f].detail.deployId
  }

  ghost predicate DeploysTell(base: Tables, t: Tables) {
    && base.deploys.Keys <= t.deploys.Keys
    && (forall d :: d in t.deploys ==> (d in base.deploys <==> !EpisodeFor(t, d)))
  }

  ghost predicate Balanced(base: Tables, t: Tables) {
    |t.deploys| == |base.deploys| + |t.actions|
  }

  /** Action rows, action episodes and the deploys written here are in bijection. */
  ghost predicate Linked(base: Tables, t: Tables) {
    RowsTell(t) && EpisodesTell(t) && DeploysTell(base, t) && Balanced(base, t)
  }

  ghost predicate RowFor(t: Tables, e: int) {
    exists a :: a in t.actions && t.actions[a].memoryRef == e
  }

  ghost predicate EpisodeFor(t: Tables, d: int) {
    exists e :: e in ActionEpisodes(t) && t.episodes[e].detail.deployId == d
  }

  /** An action has at most one outcome episode, and it says what the action row says. */
  ghost predicate OutcomesAgree(t: Tables) {
    && OneOutcomeEach(t)
    && forall e :: e in t.episodes && t.episodes[e].detail.OutcomeSeen? ==> Witnessed(t, e)
  }

  ghost predicate Witnessed(t: Tables, e: int)
    requires e in t.episodes && t.episodes[e].detail.OutcomeSeen?
  {
    var o := t.episodes[e];
    && o.detail.actionId in t.actions
    && var x := t.actions[o.detail.actionId];
       x.outcome == o.detail.outcome && x.orgId == o.orgId && x.incidentId == o.incidentId && x.targetId == o.serviceId
  }

  ghost predicate SuccessSeen(t: Tables, incidentId: int) {
    exists e :: e in t.episodes && t.episodes[e].incidentId == incidentId
                && t.episodes[e].detail.OutcomeSeen? && t.episodes[e].detail.outcome == Success
  }

  predicate Timed(i: Incident) {
    && InTimeOrder(i) && (i.mttrSeconds.Some? ==> i.mttrSeconds.value >= 0)
    && (i.status == Resolved ==> i.resolvedAt.Some? && i.mttrSeconds.Some?)
  }

  ghost predicate ResolvedForCause(base: Tables, t: Tables) {
    && t.incidents.Keys == base.incidents.Keys
    && forall i :: i in t.incidents ==>
         && Timed(t.incidents[i])
         && (t.incidents[i].status == Resolved ==> base.incidents[i].status == Resolved || SuccessSeen(t, i))
  }

  ghost function Uses(t: Tables, r: int): set<int> {
    set e | e in ActionEpisodes(t) && t.episodes[e].runbookId == Some(r)
  }

  /** Every counted use of a runbook is one action episode, and the other way round. */
  ghost predicate UsageCounted(base: Tables, t: Tables) {
    && t.runbooks.Keys == base.runbooks.Keys
    && forall r :: r in t.runbooks ==> t.runbooks[r].usageCount == base.runbooks[r].usageCount + |Uses(t, r)|
  }

  ghost predicate Sound(base: Tables, t: Tables) {
    OneActionPerKey(t) && Linked(base, t) && OutcomesAgree(t) && ResolvedForCause(base, t) && UsageCounted(base, t)
  }

  /** Tables this store has not written yet. */
  ghost predicate Untouched(base: Tables) {
    && base.actions == map[]
    && (forall e :: e in base.episodes ==> base.episodes[e].detail == Observation)
    && (forall i :: i in base.incidents ==> Timed(base.incidents[i]))
  }

  lemma UntouchedIsSound(base: Tables)
    requires Untouched(base)
    ensures Sound(base, base)
  {
    forall e | e in base.episodes ensures !IsAction(base.episodes[e]) {}
    assert ActionEpisodes(base) == {};
    forall r ensures Uses(base, r) == {} {}
  }

  // ---- A remediation keeps them -------------------------------------------------

  ghost predicate Commits(t: Tables, c: RemediationCommand, ids: NewIds) {
    Gates(t, c) && !KeyTaken(t, c.orgId, c.Key()) && Unused(t, ids)
  }

  lemma ActKeepsKeys(t: Tables, c: RemediationCommand, ids: NewIds)
    requires Commits(t, c, ids) && OneActionPerKey(t)
    ensures OneActionPerKey(Remediated(t, c, ids))
  {
    assert forall a :: a in t.actions ==> !Holds(t.actions[a], c.orgId, c.Key());
  }

  lemma ActAddsEpisode(t: Tables, c: RemediationCommand, ids: NewIds)
    requires Commits(t, c, ids)
    ensures ActionEpisodes(Remediated(t, c, ids)) == ActionEpisodes(t) + {ids.eventId}
    ensures ids.eventId !in ActionEpisodes(t)
  {}

  lemma ActLinksRows(t: Tables, c: RemediationCommand, ids: NewIds)
    requires Commits(t, c, ids) && RowsTell(t)
    ensures RowsTell(Remediated(t, c, ids))
  {
    var u := Remediated(t, c, ids);
    forall a | a in u.actions ensures Tells(u, a) {
      if a != ids.actionId { assert Tells(t, a); }
    }
    forall a | a in t.actions ensures t.actions[a].memoryRef != ids.eventId { assert Tells(t, a); }
  }

  lemma ActLinksEpisodes(t: Tables, c: RemediationCommand, ids: NewIds)
    requires Commits(t, c, ids) && RowsTell(t) && EpisodesTell(t)
    ensures EpisodesTell(Remediated(t, c, ids))
  {
    var u := Remediated(t, c, ids);
    ActAddsEpisode(t, c, ids);
    forall e | e in ActionEpisodes(u) ensures RowFor(u, e) {
      if e == ids.eventId {
        assert u.actions[ids.actionId].memoryRef == e;
      } else {
        assert RowFor(t, e);
        var a :| a in t.actions && t.actions[a].memoryRef == e;
        assert u.actions[a].memoryRef == e;
      }
    }
    forall e | e in ActionEpisodes(t) ensures t.episodes[e].detail.deployId != ids.deployId {
      assert RowFor(t, e);
      var a :| a in t.actions && t.actions[a].memoryRef == e;
      assert Tells(t, a);
    }
    forall e, f | e in ActionEpisodes(u) && f in ActionEpisodes(u) && SameDeploy(u, e, f) ensures e == f {
      if e in ActionEpisodes(t) && f in ActionEpisodes(t) { assert SameDeploy(t, e, f); }
    }
  }

  lemma ActLinksDeploys(base: Tables, t: Tables, c: RemediationCommand, ids: NewIds)
    requires Commits(t, c, ids) && DeploysTell(base, t)
    ensures DeploysTell(base, Remediated(t, c, ids))
  {
    var u := Remediated(t, c, ids);
    ActAddsEpisode(t, c, ids);
    assert u.episodes[ids.eventId].detail.deployId == ids.deployId;
    assert EpisodeFor(u, ids.deployId);
    forall d | d in u.deploys && d != ids.deployId ensures d in base.deploys <==> !EpisodeFor(u, d) {
      EpisodeForOther(t, c, ids, d);
    }
  }

  lemma ActKeepsBalance(base: Tables, t: Tables, c: RemediationCommand, ids: NewIds)
    requires Commits(t, c, ids) && Balanced(base, t)
    ensures Balanced(base, Remediated(t, c, ids))
  {
    var u := Remediated(t, c, ids);
    OneMore(t.deploys, ids.deployId, u.deploys[ids.deployId]);
    OneMore(t.actions, ids.actionId, u.actions[ids.actionId]);
  }

  lemma OneMore<V>(m: map<int, V>, k: int, v: V)
    requires k !in m
    ensures |m[k := v]| == |m| + 1
  {
    assert m[k := v].Keys == m.Keys + {k};
    assert |m[k := v]| == |m[k := v].Keys| && |m| == |m.Keys|;
  }

  lemma EpisodeForOther(t: Tables, c: RemediationCommand, ids: NewIds, d: int)
    requires Commits(t, c, ids) && d != ids.deployId
    ensures EpisodeFor(Remediated(t, c, ids), d) <==> EpisodeFor(t, d)
  {
    var u := Remediated(t, c, ids);
    ActAddsEpisode(t, c, ids);
    if EpisodeFor(t, d) {
      var e :| e in ActionEpisodes(t) && t.episodes[e].detail.deployId == d;
      assert e in ActionEpisodes(u) && u.episodes[e].detail.deployId == d;
    }
  }

  lemma ActKeepsOutcomes(t: Tables, c: RemediationCommand, ids: NewIds)
    requires Commits(t, c, ids) && OutcomesAgree(t)
    ensures OutcomesAgree(Remediated(t, c, ids))
  {
    var u := Remediated(t, c, ids);
    forall e | e in u.episodes && u.episodes[e].detail.OutcomeSeen? ensures Witnessed(u, e) {
      assert e in t.episodes && Witnessed(t, e);
    }
  }

  lemma ActKeepsCauses(base: Tables, t: Tables, c: RemediationCommand, ids: NewIds)
    requires Commits(t, c, ids) && ResolvedForCause(base, t)
    ensures ResolvedForCause(base, Remediated(t, c, ids))
  {
    var u := Remediated(t, c, ids);
    assert u.incidents.Keys == t.incidents.Keys;
    forall i | i in u.incidents && SuccessSeen(t, i) ensures SuccessSeen(u, i) {
      var e :| e in t.episodes && t.episodes[e].incidentId == i && t.episodes[e].detail.OutcomeSeen? && t.episodes[e].detail.outcome == Success;
      assert u.episodes[e] == t.episodes[e];
    }
  }

  lemma ActAddsUse(t: Tables, c: RemediationCommand, ids: NewIds, r: int)
    requires Commits(t, c, ids)
    ensures |Uses(Remediated(t, c, ids), r)| == |Uses(t, r)| + if c.runbookId == Some(r) then 1 else 0
  {
    var u := Remediated(t, c, ids);
    ActAddsEpisode(t, c, ids);
    assert Uses(u, r) == Uses(t, r) + if c.runbookId == Some(r) then {ids.eventId} else {};
    assert ids.eventId !in Uses(t, r);
  }

  lemma ActCountsUse(base: Tables, t: Tables, c: RemediationCommand, ids: NewIds)
    requires Commits(t, c, ids) && UsageCounted(base, t)
    ensures UsageCounted(base, Remediated(t, c, ids))
  {
    var u := Remediated(t, c, ids);
    assert u.runbooks.Keys == t.runbooks.Keys;
    forall r | r in u.runbooks ensures u.runbooks[r].usageCount == base.runbooks[r].usageCount + |Uses(u, r)| {
      ActAddsUse(t, c, ids, r);
    }
  }

  // ---- An outcome keeps them ------------------------------------------------------

  ghost predicate Records(t: Tables, c: OutcomeCommand, eventId: int) {
    && OutcomeTarget(t, c) && !OutcomeKnown(t, c) && eventId !in t.episodes
    && InTimeOrder(Judged(t.incidents[c.incidentId], c.outcome, c.observedAt))
  }

  lemma JudgeKeepsEpisodes(t: Tables, c: OutcomeCommand, eventId: int)
    requires Records(t, c, eventId)
    ensures ActionEpisodes(WithOutcome(t, c, eventId)) == ActionEpisodes(t)
  {}

  lemma JudgeKeepsKeys(t: Tables, c: OutcomeCommand, eventId: int)
    requires Records(t, c, eventId) && OneActionPerKey(t)
    ensures OneActionPerKey(WithOutcome(t, c, eventId))
  {
    var u := WithOutcome(t, c, eventId);
    forall a, b | (a in u.actions && b in u.actions && Holds(u.actions[b], u.actions[a].orgId, u.actions[a].key)) ensures a == b {
      assert Holds(t.actions[b], t.actions[a].orgId, t.actions[a].key);
    }
  }

  lemma JudgeKeepsRows(t: Tables, c: OutcomeCommand, eventId: int)
    requires Records(t, c, eventId) && RowsTell(t)
    ensures RowsTell(WithOutcome(t, c, eventId))
  {
    var u := WithOutcome(t, c, eventId);
    forall a | a in u.actions ensures Tells(u, a) { assert Tells(t, a); }
  }

  lemma JudgeKeepsEpisodeLinks(t: Tables, c: OutcomeCommand, eventId: int)
    requires Records(t, c, eventId) && EpisodesTell(t)
    ensures EpisodesTell(WithOutcome(t, c, eventId))
  {
    var u := WithOutcome(t, c, eventId);
    JudgeKeepsEpisodes(t, c, eventId);
    forall e | e in ActionEpisodes(u) ensures RowFor(u, e) {
      assert RowFor(t, e);
      var a :| a in t.actions && t.actions[a].memoryRef == e;
      assert u.actions[a].memoryRef == e;
    }
    forall e, f | e in ActionEpisodes(u) && f in ActionEpisodes(u) && SameDeploy(u, e, f) ensures e == f {
      assert SameDeploy(t, e, f);
    }
  }

  lemma JudgeKeepsLinks(base: Tables, t: Tables, c: OutcomeCommand, eventId: int)
    requires Records(t, c, eventId) && Linked(base, t)
    ensures Linked(base, WithOutcome(t, c, eventId))
  {
    var u := WithOutcome(t, c, eventId);
    JudgeKeepsRows(t, c, eventId);
    JudgeKeepsEpisodeLinks(t, c, eventId);
    forall d ensures EpisodeFor(u, d) <==> EpisodeFor(t, d) { JudgeKeepsDeploy(t, c, eventId, d); }
    assert u.actions.Keys == t.actions.Keys;
    assert |u.actions| == |u.actions.Keys| && |t.actions| == |t.actions.Keys|;
  }

  lemma JudgeKeepsDeploy(t: Tables, c: OutcomeCommand, eventId: int, d: int)
    requires Records(t, c, eventId)
    ensures EpisodeFor(WithOutcome(t, c, eventId), d) <==> EpisodeFor(t, d)
  {
    var u := WithOutcome(t, c, eventId);
    JudgeKeepsEpisodes(t, c, eventId);
    if EpisodeFor(t, d) {
      var e :| e in ActionEpisodes(t) && t.episodes[e].detail.deployId == d;
      assert e in ActionEpisodes(u) && u.episodes[e].detail.deployId == d;
    }
  }

  lemma JudgeKeepsOutcomes(t: Tables, c: OutcomeCommand, eventId: int)
    requires Records(t, c, eventId) && OutcomesAgree(t)
    ensures OutcomesAgree(WithOutcome(t, c, eventId))
  {
    var u := WithOutcome(t, c, eventId);
    forall e | e in t.episodes && t.episodes[e].detail.OutcomeSeen? ensures t.episodes[e].detail.actionId != c.actionId {
      assert Witnessed(t, e);
      assert !IsOutcomeOf(t.episodes[e], c);
    }
    forall e | e in u.episodes && u.episodes[e].detail.OutcomeSeen? ensures Witnessed(u, e) {
      if e != eventId { assert Witnessed(t, e); }
    }
  }

  lemma JudgeKeepsCauses(base: Tables, t: Tables, c: OutcomeCommand, eventId: int)
    requires Records(t, c, eventId) && ResolvedForCause(base, t)
    ensures ResolvedForCause(base, WithOutcome(t, c, eventId))
  {
    var u := WithOutcome(t, c, eventId);
    assert u.incidents.Keys == t.incidents.Keys;
    forall i | i in u.incidents && u.incidents[i].status == Resolved
      ensures base.incidents[i].status == Resolved || SuccessSeen(u, i)
    {
      if t.incidents[i].status == Resolved {
        if SuccessSeen(t, i) {
          var e :| e in t.episodes && t.episodes[e].incidentId == i && t.episodes[e].detail.OutcomeSeen? && t.episodes[e].detail.outcome == Success;
          assert u.episodes[e] == t.episodes[e];
        }
      } else {
        assert u.episodes[eventId].incidentId == i;
      }
    }
  }

  lemma JudgeKeepsUse(base: Tables, t: Tables, c: OutcomeCommand, eventId: int)
    requires Records(t, c, eventId) && UsageCounted(base, t)
    ensures UsageCounted(base, WithOutcome(t, c, eventId))
  {
    var u := WithOutcome(t, c, eventId);
    JudgeKeepsEpisodes(t, c, eventId);
    forall r ensures Uses(u, r) == Uses(t, r) {}
  }

  // ---- Every interleaving -----------------------------------------------------------

  lemma ActKeepsSound(base: Tables, t: Tables, c: RemediationCommand, ids: NewIds)
    requires Sound(base, t) && Commits(t, c, ids)
    ensures Sound(base, Remediated(t, c, ids))
  {
    ActKeepsKeys(t, c, ids);
    ActLinksRows(t, c, ids);
    ActLinksEpisodes(t, c, ids);
    ActLinksDeploys(base, t, c, ids);
    ActKeepsBalance(base, t, c, ids);
    ActKeepsOutcomes(t, c, ids);
    ActKeepsCauses(base, t, c, ids);
    ActCountsUse(base, t, c, ids);
  }

  lemma JudgeKeepsSound(base: Tables, t: Tables, c: OutcomeCommand, eventId: int)
    requires Sound(base, t) && Records(t, c, eventId)
    ensures Sound(base, WithOutcome(t, c, eventId))
  {
    JudgeKeepsKeys(t, c, eventId);
    JudgeKeepsLinks(base, t, c, eventId);
    JudgeKeepsOutcomes(t, c, eventId);
    JudgeKeepsCauses(base, t, c, eventId);
    JudgeKeepsUse(base, t, c, eventId);
  }

  /** A transaction either leaves the tables alone or makes one of the two updates. */
  lemma StepIs(base: Tables, t: Tables, op: Op)
    requires Fresh(t, op) && ResolvedForCause(base, t)
    ensures Step(t, op) == t
         || (op.Act? && Commits(t, op.command, op.ids) && Step(t, op) == Remediated(t, op.command, op.ids))
         || (op.Judge? && Records(t, op.outcome, op.eventId) && Step(t, op) == WithOutcome(t, op.outcome, op.eventId))
  {
    if op.Judge? && OutcomeTarget(t, op.outcome) { assert Timed(t.incidents[op.outcome.incidentId]); }
  }

  lemma StepKeepsSound(base: Tables, t: Tables, op: Op)
    requires Sound(base, t) && Fresh(t, op)
    ensures Sound(base, Step(t, op))
  {
    StepIs(base, t, op);
    if Step(t, op) != t {
      if op.Act? { ActKeepsSound(base, t, op.command, op.ids); } else { JudgeKeepsSound(base, t, op.outcome, op.eventId); }
    }
  }

  /** All five invariants, after any sequence of transactions. */
  lemma {:induction false} EveryHistoryIsSound(base: Tables, ops: seq<Op>)
    requires Untouched(base) && Legal(base, ops)
    ensures Sound(base, Run(base, ops))
  {
    if ops == [] {
      UntouchedIsSound(base);
    } else {
      EveryHistoryIsSound(base, ops[..|ops| - 1]);
      StepKeepsSound(base, Run(base, ops[..|ops| - 1]), ops[|ops| - 1]);
    }
  }

  // ---- What no later transaction undoes ---------------------------------------------

  predicate Settles(i: Incident, j: Incident) {
    && j.openedAt == i.openedAt
    && (i.status == Resolved ==> j.status == Resolved)
    && (i.resolvedAt.Some? ==> j.resolvedAt == i.resolvedAt)
    && (i.mttrSeconds.Some? ==> j.mttrSeconds == i.mttrSeconds)
  }

  ghost predicate OutcomeStored(t: Tables, a: int) {
    exists e :: e in t.episodes && t.episodes[e].detail.OutcomeSeen? && t.episodes[e].detail.actionId == a
  }

  /** Rows are never removed or rewritten: an action's outcome is final once an outcome
      episode names it, resolution and its times are final at once. */
  ghost predicate Kept(t: Tables, u: Tables) {
    && (forall e :: e in t.episodes ==> e in u.episodes && u.episodes[e] == t.episodes[e])
    && (forall d :: d in t.deploys ==> d in u.deploys && u.deploys[d] == t.deploys[d])
    && (forall i :: i in t.incidents ==> i in u.incidents && Settles(t.incidents[i], u.incidents[i]))
    && (forall a :: a in t.actions ==>
          && a in u.actions && u.actions[a].(outcome := t.actions[a].outcome) == t.actions[a]
          && (OutcomeStored(t, a) ==> u.actions[a].outcome == t.actions[a].outcome))
  }

  lemma ActKeepsAll(t: Tables, c: RemediationCommand, ids: NewIds)
    requires Commits(t, c, ids)
    ensures Kept(t, Remediated(t, c, ids))
  {}

  lemma JudgeKeepsAll(t: Tables, c: OutcomeCommand, eventId: int)
    requires Records(t, c, eventId) && !OutcomeStored(t, c.actionId)
    ensures Kept(t, WithOutcome(t, c, eventId))
  {}

  lemma StepKeeps(base: Tables, t: Tables, op: Op)
    requires Fresh(t, op) && Sound(base, t)
    ensures Kept(t, Step(t, op))
  {
    StepIs(base, t, op);
    if Step(t, op) == t {
      KeptIsReflexive(t);
    } else if op.Act? {
      ActKeepsAll(t, op.command, op.ids);
    } else {
      UnknownIsUnstored(t, op.outcome);
      JudgeKeepsAll(t, op.outcome, op.eventId);
    }
  }

  lemma UnknownIsUnstored(t: Tables, c: OutcomeCommand)
    requires OutcomesAgree(t) && OutcomeTarget(t, c) && !OutcomeKnown(t, c)
    ensures !OutcomeStored(t, c.actionId)
  {
    forall e | e in t.episodes && t.episodes[e].detail.OutcomeSeen? ensures t.episodes[e].detail.actionId != c.actionId {
      assert Witnessed(t, e);
      assert !IsOutcomeOf(t.episodes[e], c);
    }
  }

  lemma KeptIsTransitive(t: Tables, u: Tables, v: Tables)
    requires Kept(t, u) && Kept(u, v)
    ensures Kept(t, v)
  {
    forall a | a in t.actions && OutcomeStored(t, a) ensures v.actions[a].outcome == t.actions[a].outcome {
      var e :| e in t.episodes && t.episodes[e].detail.OutcomeSeen? && t.episodes[e].detail.actionId == a;
      assert u.episodes[e] == t.episodes[e];
      assert OutcomeStored(u, a);
    }
    forall i | i in t.incidents ensures i in v.incidents && Settles(t.incidents[i], v.incidents[i]) {
      assert Settles(t.incidents[i], u.incidents[i]);
    }
  }

  lemma LastStepKeeps(base: Tables, all: seq<Op>, t: Tables)
    requires Untouched(base) && all != [] && Legal(base, all)
    requires Kept(t, Run(base, all[..|all| - 1]))
    ensures Kept(t, Run(base, all))
  {
    var u := Run(base, all[..|all| - 1]);
    EveryHistoryIsSound(base, all[..|all| - 1]);
    StepKeeps(base, u, all[|all| - 1]);
    KeptIsTransitive(t, u, Run(base, all));
  }

  lemma KeptIsReflexive(t: Tables)
    ensures Kept(t, t)
  {}

  lemma {:induction false} NothingIsUndone(base: Tables, ops: seq<Op>, more: seq<Op>)
    requires Untouched(base) && Legal(base, ops + more)
    ensures Legal(base, ops)
    ensures Kept(Run(base, ops), Run(base, ops + more))
  {
    if more == [] {
      assert ops + more == ops;
      KeptIsReflexive(Run(base, ops));
    } else {
      var front := more[..|more| - 1];
      assert (ops + more)[..|ops + more| - 1] == ops + front;
      NothingIsUndone(base, ops, front);
      LastStepKeeps(base, ops + more, Run(base, ops));
    }
  }

  // ---- Exactly once under lost acknowledgements ---------------------------------------

  /** Against a table that already holds the key, a call changes nothing: without faults it
      answers the stored ids if the gates still pass, and a refusal otherwise. */
  lemma {:induction false} RepeatedCallReplays(t: Tables, c: RemediationCommand, ids: NewIds, faults: seq<Fault>, lookupFails: bool)
    requires faults != [] && KeyTaken(t, c.orgId, c.Key())
    ensures var (after, verdict) := CallSpec(t, c, ids, faults, lookupFails);
            && after == t
            && (verdict.Replayed? ==> StoredIds(t, c.orgId, c.Key()) == Some(verdict.ids))
            && !verdict.Committed?
            && ((faults[0] == NoFault && !lookupFails && StoredIds(t, c.orgId, c.Key()).Some?) ==>
                  verdict == if Gates(t, c) then Replayed(StoredIds(t, c.orgId, c.Key()).value) else GateRejected)
  {
    if faults[0] == Aborted && |faults| > 1 { RepeatedCallReplays(t, c, ids, faults[1..], lookupFails); }
  }

  lemma StoredIdsKept(base: Tables, t: Tables, u: Tables, orgId: int, key: ActionKey)
    requires Sound(base, t) && OneActionPerKey(u) && Kept(t, u) && KeyTaken(t, orgId, key)
    ensures StoredIds(t, orgId, key).Some? && KeyTaken(u, orgId, key)
    ensures StoredIds(u, orgId, key) == StoredIds(t, orgId, key)
  {
    var a :| a in t.actions && Holds(t.actions[a], orgId, key);
    assert Tells(t, a);
    assert a in u.actions && Holds(u.actions[a], orgId, key);
    StoredIdsAre(t, a);
    StoredIdsAre(u, a);
  }

  // ---- Outcomes ------------------------------------------------------------------------

  /** Recording again changes nothing: the same outcome answers the original episode, a
      different one is a conflict. */
  lemma {:induction false} RepeatedOutcomeReplays(t: Tables, c: OutcomeCommand, eventId: int, faults: seq<Fault>)
    requires faults != [] && OutcomesAgree(t) && OutcomeTarget(t, c) && OutcomeStored(t, c.actionId)
    ensures var (after, verdict) := RecordCallSpec(t, c, eventId, faults);
            && after == t
            && (verdict.Conflict? ==> verdict.recorded == t.actions[c.actionId].outcome && c.outcome != verdict.recorded)
            && (faults[0] == NoFault ==>
                  if t.actions[c.actionId].outcome == c.outcome
                  then OutcomeKnown(t, c)
                       && verdict == Recorded(KnownOutcome(t, c), t.actions[c.actionId].transactionId, t.incidents[c.incidentId].status, true)
                  else verdict == Conflict(t.actions[c.actionId].outcome))
  {
    if faults[0] == Aborted && |faults| > 1 {
      RepeatedOutcomeReplays(t, c, eventId, faults[1..]);
    }
    var e :| e in t.episodes && t.episodes[e].detail.OutcomeSeen? && t.episodes[e].detail.actionId == c.actionId;
    assert Witnessed(t, e);
    assert IsOutcomeOf(t.episodes[e], c);
    assert KnownOutcome(t, c) == e;
  }

  /** A first outcome is recorded exactly when it keeps the incident's times in order: a
      success observed before the incident was opened is rolled back. */
  lemma FirstOutcomeIsRecordedIff(base: Tables, t: Tables, c: OutcomeCommand, eventId: int)
    requires Sound(base, t) && OutcomeTarget(t, c) && !OutcomeStored(t, c.actionId) && eventId !in t.episodes
    ensures var (after, verdict) := RecordSpec(t, c, eventId, NoFault);
            var i := t.incidents[c.incidentId];
            && (verdict.Recorded? <==> c.outcome != Success || i.resolvedAt.Some? || i.openedAt <= c.observedAt)
            && (verdict.Recorded? ==> after == WithOutcome(t, c, eventId) && verdict.eventId == eventId && !verdict.replay)
            && (!verdict.Recorded? ==> after == t && verdict == OutcomeRolledBack)
  {
    assert Timed(t.incidents[c.incidentId]);
    KnownIsStored(t, c);
  }

  lemma KnownIsStored(t: Tables, c: OutcomeCommand)
    ensures OutcomeKnown(t, c) ==> OutcomeStored(t, c.actionId)
  {
    if OutcomeKnown(t, c) {
      var e :| e in t.episodes && IsOutcomeOf(t.episodes[e], c);
    }
  }

  /** One service, one open incident and one memory to cite. */
  function Scene(openedAt: int): Tables {
    Tables(map[1 := Service(1, Down, "v2", None)],
           map[1 := Incident(1, 1, Open, None, openedAt, None, None)],
           map[], map[1 := Episode(1, 1, 1, 1, None, Observation)], map[], map[])
  }

  function RollBackScene(): Op {
    Act(RemediationCommand(1, 1, 1, 1, Rollback, "v1", 1, None, false, false, ""), NewIds(1, 2, 1, 1), NoFault)
  }

  lemma SceneIsActedOn(openedAt: int)
    ensures Untouched(Scene(openedAt)) && Legal(Scene(openedAt), [RollBackScene()])
    ensures var base := Scene(openedAt);
            var op := RollBackScene();
            Gates(base, op.command) && Run(base, [op]) == Remediated(base, op.command, op.ids)
  {
    var base := Scene(openedAt);
    assert [RollBackScene()][..0] == [];
    assert Run(base, []) == base && Legal(base, []);
    assert Fresh(base, RollBackScene());
    assert Gates(base, RollBackScene().command);
    assert !KeyTaken(base, 1, RollBackScene().command.Key());
  }

  /** The failing input: an incident opened after the moment its action's success was observed.
      The action has committed, yet its success is rolled back on every attempt. */
  lemma EarlySuccessIsRolledBack(openedAt: int, observedAt: int)
    requires observedAt < openedAt
    ensures Untouched(Scene(openedAt)) && Legal(Scene(openedAt), [RollBackScene()])
    ensures var t := Run(Scene(openedAt), [RollBackScene()]);
            var success := OutcomeCommand(1, 1, 1, 1, 1, Success, observedAt);
            && OutcomeTarget(t, success) && !OutcomeStored(t, 1) && 3 !in t.episodes
            && RecordSpec(t, success, 3, NoFault) == (t, OutcomeRolledBack)
  {
    SceneIsActedOn(openedAt);
    EveryHistoryIsSound(Scene(openedAt), [RollBackScene()]);
    var t := Run(Scene(openedAt), [RollBackScene()]);
    assert t.actions[1] == NewAction(RollBackScene().command, RollBackScene().ids);
    FirstOutcomeIsRecordedIff(Scene(openedAt), t, OutcomeCommand(1, 1, 1, 1, 1, Success, observedAt), 3);
  }
}
