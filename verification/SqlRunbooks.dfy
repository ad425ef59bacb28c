/** The SQL runbook repository (consolidation/postmortem_consolidation/repository.py:150-341)
    as one atomic update of two tables, `procedural_memory` and `runbook_provenance`. */
module SqlRunbooks {
  import opened Contracts
  import Ranker
  import opened RunbookStatus
  import opened RunbookRepository

  datatype Role = Source | Reinforcement | Counterexample

  datatype RunbookRow = RunbookRow(
    key: RunbookKey, version: nat, steps: seq<string>, tally: Tally, usage: nat, successRate: real)

  datatype ProvenanceRow = ProvenanceRow(runbookId: int, incidentId: int, role: Role)

  datatype Tables = Tables(runbooks: map<int, RunbookRow>, provenance: seq<ProvenanceRow>)

  datatype SqlMutation = SqlMutation(
    operation: Operation, runbookId: Option<int>, version: nat,
    successCount: nat, failureCount: nat, status: Option<Status>, idempotentReplay: bool)

  // ---- The statements -----------------------------------------------------

  function NameOf(t: Tables, id: int): Option<RunbookKey> {
    if id in t.runbooks then Some(t.runbooks[id].key) else None
  }

  /** Provenance of this incident for some version of this name. */
  predicate RecordedAt(t: Tables, key: RunbookKey, incident: int, i: nat) {
    && i < |t.provenance| && t.provenance[i].incidentId == incident
    && NameOf(t, t.provenance[i].runbookId) == Some(key)
  }

  predicate Recorded(t: Tables, key: RunbookKey, incident: int) {
    exists i :: 0 <= i < |t.provenance| && RecordedAt(t, key, incident, i)
  }

  predicate HasName(t: Tables, key: RunbookKey) {
    exists id :: id in t.runbooks && t.runbooks[id].key == key
  }

  /** ORDER BY version DESC LIMIT 1 */
  predicate IsLatest(t: Tables, key: RunbookKey, id: int) {
    && id in t.runbooks && t.runbooks[id].key == key
    && forall other :: other in t.runbooks && t.runbooks[other].key == key ==>
         t.runbooks[other].version <= t.runbooks[id].version
  }

  ghost function Latest(t: Tables, key: RunbookKey): Option<int> {
    if id :| IsLatest(t, key, id) then Some(id) else None
  }

  function WeakenRow(r: RunbookRow): RunbookRow {
    r.(tally := Weaken(r.tally), usage := r.usage + 1,
       successRate := r.tally.successes as real / (r.usage + 1) as real)
  }

  function ReinforceRow(reinforcements: nat, r: RunbookRow): RunbookRow {
    r.(tally := Reinforce(reinforcements, r.tally), usage := r.usage + 1,
       successRate := (r.tally.successes + 1) as real / (r.usage + 1) as real)
  }

  function Retire(r: RunbookRow): RunbookRow {
    r.(tally := r.tally.(status := Deprecated))
  }

  function FirstDraft(c: CandidateRunbook, version: nat): RunbookRow {
    RunbookRow(KeyOf(c), version, c.steps, CREATED, 1, 1.0)
  }

  function Cite(t: Tables, id: int, c: CandidateRunbook, role: Role): Tables {
    t.(provenance := t.provenance + [ProvenanceRow(id, c.incidentId, role)])
  }

  /** The new version's insertion, with the prior version retired. */
  function Publish(t: Tables, prior: Option<int>, c: CandidateRunbook, newId: int): Tables
    requires prior.Some? ==> prior.value in t.runbooks
  {
    var kept := if prior == None then t.runbooks else t.runbooks[prior.value := Retire(t.runbooks[prior.value])];
    var version := if prior == None then 1 else t.runbooks[prior.value].version + 1;
    Cite(t.(runbooks := kept[newId := FirstDraft(c, version)]), newId, c, Source)
  }

  /** None is the refused embedding: the transaction rolls back. */
  ghost function ApplySql(reinforcements: nat, t: Tables, c: CandidateRunbook, newId: int): Option<Tables> {
    var latest := Latest(t, KeyOf(c));
    if Recorded(t, KeyOf(c), c.incidentId) then Some(t)
    else if c.outcome != Success then
      if latest == None then Some(t)
      else
        var row := WeakenRow(t.runbooks[latest.value]);
        Some(Cite(t.(runbooks := t.runbooks[latest.value := row]), latest.value, c, Counterexample))
    else if latest == None || t.runbooks[latest.value].steps != c.steps then
      if |c.embedding| != EMBEDDING_DIMENSIONS then None
      else Some(Publish(t, latest, c, newId))
    else
      var row := ReinforceRow(reinforcements, t.runbooks[latest.value]);
      Some(Cite(t.(runbooks := t.runbooks[latest.value := row]), latest.value, c, Reinforcement))
  }

  // ---- What every reachable pair of tables keeps --------------------------

  function Tallied(provenance: seq<ProvenanceRow>, id: int, positive: bool): nat {
    if provenance == [] then 0
    else
      var p := provenance[|provenance| - 1];
      Tallied(provenance[..|provenance| - 1], id, positive)
      + if p.runbookId == id && (p.role != Counterexample) == positive then 1 else 0
  }

  /** success_count and failure_count are the numbers of provenance rows. */
  ghost predicate CountsCite(t: Tables) {
    forall id :: id in t.runbooks ==>
      && t.runbooks[id].tally.successes == Tallied(t.provenance, id, true)
      && t.runbooks[id].tally.failures == Tallied(t.provenance, id, false)
  }

  ghost predicate ProvenanceResolves(t: Tables) {
    forall i :: 0 <= i < |t.provenance| ==> t.provenance[i].runbookId in t.runbooks
  }

  /** No incident is counted twice under one name. */
  ghost predicate CountedOnce(t: Tables) {
    forall i, j :: 0 <= i < j < |t.provenance| ==>
      !(t.provenance[i].incidentId == t.provenance[j].incidentId
        && NameOf(t, t.provenance[i].runbookId) == NameOf(t, t.provenance[j].runbookId))
  }

  ghost predicate VersionsDiffer(t: Tables) {
    forall a, b :: a in t.runbooks && b in t.runbooks && a != b && t.runbooks[a].key == t.runbooks[b].key ==>
      t.runbooks[a].version != t.runbooks[b].version
  }

  /** Every version but the highest of its name is deprecated. */
  ghost predicate OnlyLatestLives(t: Tables) {
    forall id :: id in t.runbooks && t.runbooks[id].tally.status != Deprecated ==> IsLatest(t, t.runbooks[id].key, id)
  }

  /** The row-level bounds, with the table's CHECK constraints among them. */
  ghost predicate RowSound(r: RunbookRow) {
    && r.version >= 1 && r.tally.successes >= 1
    && r.tally.successes + r.tally.failures <= r.usage
    && (r.tally.status != Deprecated ==> r.tally.failures < r.tally.successes)
    && 0.0 <= r.successRate <= 1.0
  }

  ghost predicate RowsSound(t: Tables) {
    forall id :: id in t.runbooks ==> RowSound(t.runbooks[id])
  }

  ghost predicate Sound(t: Tables) {
    && ProvenanceResolves(t) && CountsCite(t) && CountedOnce(t)
    && VersionsDiffer(t) && OnlyLatestLives(t) && RowsSound(t)
  }

  lemma LatestExists(t: Tables, key: RunbookKey)
    ensures Latest(t, key) == None <==> !HasName(t, key)
    ensures Latest(t, key).Some? ==> IsLatest(t, key, Latest(t, key).value)
  {
    var mine := set id | id in t.runbooks && t.runbooks[id].key == key;
    if HasName(t, key) {
      var id :| id in t.runbooks && t.runbooks[id].key == key;
      var best := HighestVersion(t, key, mine, id);
      assert IsLatest(t, key, best);
    }
  }

  lemma {:induction false} HighestVersion(t: Tables, key: RunbookKey, ids: set<int>, seed: int) returns (best: int)
    requires ids <= t.runbooks.Keys && seed in ids
    requires forall id :: id in ids ==> t.runbooks[id].key == key
    ensures best in ids && forall id :: id in ids ==> t.runbooks[id].version <= t.runbooks[best].version
  {
    var others := ids - {seed};
    best := seed;
    assert forall id :: id in ids ==> id == seed || id in others;
    if other :| other in others {
      var rest := HighestVersion(t, key, others, other);
      best := if t.runbooks[rest].version >= t.runbooks[seed].version then rest else seed;
    }
  }

  lemma LatestIsUnique(t: Tables, key: RunbookKey, a: int, b: int)
    requires VersionsDiffer(t) && IsLatest(t, key, a) && IsLatest(t, key, b)
    ensures a == b
  {}

  lemma RateIsAShare(part: nat, whole: nat)
    requires part <= whole && whole > 0
    ensures 0.0 <= part as real / whole as real <= 1.0
  {}

  lemma TallyOneMore(provenance: seq<ProvenanceRow>, p: ProvenanceRow, id: int, positive: bool)
    ensures Tallied(provenance + [p], id, positive) ==
            Tallied(provenance, id, positive) + if p.runbookId == id && (p.role != Counterexample) == positive then 1 else 0
  {
    assert (provenance + [p])[..|provenance|] == provenance;
  }

  lemma {:induction false} TallyOfUnknown(provenance: seq<ProvenanceRow>, id: int, positive: bool)
    requires forall i :: 0 <= i < |provenance| ==> provenance[i].runbookId != id
    ensures Tallied(provenance, id, positive) == 0
  {
    if provenance != [] { TallyOfUnknown(provenance[..|provenance| - 1], id, positive); }
  }

  // ---- Soundness is kept --------------------------------------------------

  /** Crediting the latest version keeps the tables sound. */
  lemma CreditKeepsSound(t: Tables, c: CandidateRunbook, id: int, row: RunbookRow, role: Role)
    requires Sound(t)
    requires IsLatest(t, KeyOf(c), id) && !Recorded(t, KeyOf(c), c.incidentId)
    requires row.key == KeyOf(c) && row.version == t.runbooks[id].version && RowSound(row)
    requires row.tally.successes == t.runbooks[id].tally.successes + (if role != Counterexample then 1 else 0)
    requires row.tally.failures == t.runbooks[id].tally.failures + (if role == Counterexample then 1 else 0)
    ensures Sound(Cite(t.(runbooks := t.runbooks[id := row]), id, c, role))
  {
    var p := ProvenanceRow(id, c.incidentId, role);
    var u := Cite(t.(runbooks := t.runbooks[id := row]), id, c, role);
    NamesStay(t, u);
    CitesOnce(t, u, c, p);
    forall x | x in u.runbooks
      ensures u.runbooks[x].tally.successes == Tallied(u.provenance, x, true)
      ensures u.runbooks[x].tally.failures == Tallied(u.provenance, x, false)
    {
      TallyOneMore(t.provenance, p, x, true);
      TallyOneMore(t.provenance, p, x, false);
    }
    forall x | x in u.runbooks && u.runbooks[x].tally.status != Deprecated ensures IsLatest(u, u.runbooks[x].key, x) {
      if x != id { assert IsLatest(t, t.runbooks[x].key, x); }
    }
  }

  lemma NamesStay(t: Tables, u: Tables)
    requires t.runbooks.Keys <= u.runbooks.Keys
    requires forall id :: id in t.runbooks ==> u.runbooks[id].key == t.runbooks[id].key
    ensures forall id :: id in t.runbooks ==> NameOf(u, id) == NameOf(t, id)
  {}

  lemma CitesOnce(t: Tables, u: Tables, c: CandidateRunbook, p: ProvenanceRow)
    requires ProvenanceResolves(t) && CountedOnce(t)
    requires t.runbooks.Keys <= u.runbooks.Keys
    requires forall id :: id in t.runbooks ==> NameOf(u, id) == NameOf(t, id)
    requires u.provenance == t.provenance + [p]
    requires p.incidentId == c.incidentId && NameOf(u, p.runbookId) == Some(KeyOf(c))
    requires !Recorded(t, KeyOf(c), c.incidentId)
    ensures CountedOnce(u) && ProvenanceResolves(u)
  {
    var n := |t.provenance|;
    forall i, j | 0 <= i < j < |u.provenance|
      ensures !(u.provenance[i].incidentId == u.provenance[j].incidentId
                && NameOf(u, u.provenance[i].runbookId) == NameOf(u, u.provenance[j].runbookId))
    {
      assert u.provenance[i] == t.provenance[i];
      if j == n {
        assert !RecordedAt(t, KeyOf(c), c.incidentId, i);
      } else {
        assert u.provenance[j] == t.provenance[j];
      }
    }
  }

  lemma PublishedIsNewest(t: Tables, c: CandidateRunbook, prior: Option<int>, newId: int)
    requires if prior == None then !HasName(t, KeyOf(c)) else IsLatest(t, KeyOf(c), prior.value)
    requires newId !in t.runbooks
    ensures var u := Publish(t, prior, c, newId);
            && IsLatest(u, KeyOf(c), newId)
            && (forall x :: x in t.runbooks && t.runbooks[x].key == KeyOf(c) ==> t.runbooks[x].version < u.runbooks[newId].version)
            && (forall x :: x in u.runbooks && x != newId ==>
                  && x in t.runbooks && u.runbooks[x].key == t.runbooks[x].key && u.runbooks[x].version == t.runbooks[x].version)
  {}

  lemma PublishKeepsVersions(t: Tables, c: CandidateRunbook, prior: Option<int>, newId: int)
    requires VersionsDiffer(t)
    requires if prior == None then !HasName(t, KeyOf(c)) else IsLatest(t, KeyOf(c), prior.value)
    requires newId !in t.runbooks
    ensures VersionsDiffer(Publish(t, prior, c, newId)) && IsLatest(Publish(t, prior, c, newId), KeyOf(c), newId)
  {
    PublishedIsNewest(t, c, prior, newId);
  }

  /** A row that was live before: the prior version, or a row of another name. */
  lemma PublishRetiresTheRest(t: Tables, c: CandidateRunbook, prior: Option<int>, newId: int, x: int)
    requires VersionsDiffer(t) && OnlyLatestLives(t)
    requires if prior == None then !HasName(t, KeyOf(c)) else IsLatest(t, KeyOf(c), prior.value)
    requires newId !in t.runbooks && x in t.runbooks && t.runbooks[x].tally.status != Deprecated
    ensures if t.runbooks[x].key == KeyOf(c) then prior == Some(x)
            else IsLatest(Publish(t, prior, c, newId), t.runbooks[x].key, x)
  {
    assert IsLatest(t, t.runbooks[x].key, x);
    if t.runbooks[x].key == KeyOf(c) { LatestIsUnique(t, KeyOf(c), x, prior.value); }
  }

  lemma PublishKeepsOneLive(t: Tables, c: CandidateRunbook, prior: Option<int>, newId: int)
    requires VersionsDiffer(t) && OnlyLatestLives(t) && RowsSound(t)
    requires if prior == None then !HasName(t, KeyOf(c)) else IsLatest(t, KeyOf(c), prior.value)
    requires newId !in t.runbooks
    ensures OnlyLatestLives(Publish(t, prior, c, newId)) && RowsSound(Publish(t, prior, c, newId))
  {
    var u := Publish(t, prior, c, newId);
    PublishedIsNewest(t, c, prior, newId);
    forall x | x in u.runbooks && u.runbooks[x].tally.status != Deprecated ensures IsLatest(u, u.runbooks[x].key, x) {
      if x != newId { PublishRetiresTheRest(t, c, prior, newId, x); }
    }
  }

  lemma PublishCites(t: Tables, c: CandidateRunbook, prior: Option<int>, newId: int)
    requires ProvenanceResolves(t) && CountsCite(t) && CountedOnce(t)
    requires prior.Some? ==> prior.value in t.runbooks
    requires newId !in t.runbooks && !Recorded(t, KeyOf(c), c.incidentId)
    ensures var u := Publish(t, prior, c, newId);
            ProvenanceResolves(u) && CountsCite(u) && CountedOnce(u)
  {
    var p := ProvenanceRow(newId, c.incidentId, Source);
    var u := Publish(t, prior, c, newId);
    NamesStay(t, u);
    CitesOnce(t, u, c, p);
    TallyOfUnknown(t.provenance, newId, true);
    TallyOfUnknown(t.provenance, newId, false);
    forall x | x in u.runbooks
      ensures u.runbooks[x].tally.successes == Tallied(u.provenance, x, true)
      ensures u.runbooks[x].tally.failures == Tallied(u.provenance, x, false)
    {
      TallyOneMore(t.provenance, p, x, true);
      TallyOneMore(t.provenance, p, x, false);
    }
  }

  lemma PublishKeepsSound(t: Tables, c: CandidateRunbook, prior: Option<int>, newId: int)
    requires Sound(t)
    requires prior == Latest(t, KeyOf(c)) && !Recorded(t, KeyOf(c), c.incidentId)
    requires newId !in t.runbooks
    ensures prior.Some? ==> prior.value in t.runbooks
    ensures Sound(Publish(t, prior, c, newId))
    ensures IsLatest(Publish(t, prior, c, newId), KeyOf(c), newId)
  {
    LatestExists(t, KeyOf(c));
    PublishKeepsVersions(t, c, prior, newId);
    PublishKeepsOneLive(t, c, prior, newId);
    PublishCites(t, c, prior, newId);
  }

  /** The SQL store's agreement with its provenance survives every application. */
  lemma ApplyKeepsSound(reinforcements: nat, t: Tables, c: CandidateRunbook, newId: int)
    requires Sound(t) && newId !in t.runbooks
    ensures ApplySql(reinforcements, t, c, newId).Some? ==> Sound(ApplySql(reinforcements, t, c, newId).value)
  {
    var latest := Latest(t, KeyOf(c));
    LatestExists(t, KeyOf(c));
    if Recorded(t, KeyOf(c), c.incidentId) {
    } else if c.outcome != Success {
      if latest != None {
        var old_ := t.runbooks[latest.value];
        RateIsAShare(old_.tally.successes, old_.usage + 1);
        CreditKeepsSound(t, c, latest.value, WeakenRow(old_), Counterexample);
      }
    } else if latest == None || t.runbooks[latest.value].steps != c.steps {
      if |c.embedding| == EMBEDDING_DIMENSIONS {
        PublishKeepsSound(t, c, latest, newId);
      }
    } else {
      var old_ := t.runbooks[latest.value];
      RateIsAShare(old_.tally.successes + 1, old_.usage + 1);
      CreditKeepsSound(t, c, latest.value, ReinforceRow(reinforcements, old_), Reinforcement);
    }
  }

  /** A remediation that cited the runbook (the runbook_usage statement of
      backend/src/postmortem_backend/adapters/cockroach.py:123-131). */
  function UseRunbook(t: Tables, id: int): Tables {
    if id in t.runbooks then t.(runbooks := t.runbooks[id := t.runbooks[id].(usage := t.runbooks[id].usage + 1)]) else t
  }

  lemma UseKeepsSound(t: Tables, id: int)
    requires Sound(t)
    ensures Sound(UseRunbook(t, id))
  {
    if id in t.runbooks {
      var u := UseRunbook(t, id);
      NamesStay(t, u);
      forall x | x in u.runbooks && u.runbooks[x].tally.status != Deprecated ensures IsLatest(u, u.runbooks[x].key, x) {
        assert IsLatest(t, t.runbooks[x].key, x);
      }
    }
  }

  datatype SqlOp = Apply(candidate: CandidateRunbook, newId: int) | Use(runbookId: int)

  ghost function RunSql(reinforcements: nat, t: Tables, ops: seq<SqlOp>): Tables {
    if ops == [] then t
    else
      var before := RunSql(reinforcements, t, ops[..|ops| - 1]);
      match ops[|ops| - 1]
      case Use(id) => UseRunbook(before, id)
      case Apply(c, newId) =>
        var after := ApplySql(reinforcements, before, c, newId);
        if after == None then before else after.value
  }

  /** Every generated id is new. */
  ghost predicate FreshIds(reinforcements: nat, t: Tables, ops: seq<SqlOp>) {
    forall n :: 0 <= n < |ops| && ops[n].Apply? ==> ops[n].newId !in RunSql(reinforcements, t, ops[..n]).runbooks
  }

  const NO_ROWS := Tables(map[], [])

  lemma FreshFront(reinforcements: nat, t: Tables, ops: seq<SqlOp>)
    requires ops != [] && FreshIds(reinforcements, t, ops)
    ensures FreshIds(reinforcements, t, ops[..|ops| - 1])
    ensures ops[|ops| - 1].Apply? ==> ops[|ops| - 1].newId !in RunSql(reinforcements, t, ops[..|ops| - 1]).runbooks
  {
    var front := ops[..|ops| - 1];
    forall m | 0 <= m < |front| && front[m].Apply? ensures front[m].newId !in RunSql(reinforcements, t, front[..m]).runbooks {
      assert front[..m] == ops[..m] && ops[m].Apply?;
    }
  }

  /** In every reachable state the counters are the provenance counts, an incident is
      counted at most once per name, and only the highest version may be in use. */
  lemma {:induction false} StoreAlwaysSound(reinforcements: nat, ops: seq<SqlOp>)
    requires FreshIds(reinforcements, NO_ROWS, ops)
    ensures Sound(RunSql(reinforcements, NO_ROWS, ops))
  {
    if ops != [] {
      var n := |ops| - 1;
      var front := ops[..n];
      FreshFront(reinforcements, NO_ROWS, ops);
      StoreAlwaysSound(reinforcements, front);
      match ops[n]
      case Use(id) => UseKeepsSound(RunSql(reinforcements, NO_ROWS, front), id);
      case Apply(c, newId) => ApplyKeepsSound(reinforcements, RunSql(reinforcements, NO_ROWS, front), c, newId);
    }
  }

  // ---- Rates ----------------------------------------------------------------

  /** successRate is successes over usage. */
  predicate RateIsShare(r: RunbookRow) {
    r.successRate * r.usage as real == r.tally.successes as real
  }

  lemma ShareTimesWhole(part: nat, whole: nat)
    requires whole > 0
    ensures part as real / whole as real * whole as real == part as real
  {}

  /** The row took one more outcome: one count, one use, and the rate they now give. */
  predicate TookOne(before: RunbookRow, after: RunbookRow, success: bool) {
    && after.key == before.key && after.version == before.version && after.steps == before.steps
    && after.tally.successes == before.tally.successes + (if success then 1 else 0)
    && after.tally.failures == before.tally.failures + (if success then 0 else 1)
    && after.usage == before.usage + 1 && RateIsShare(after)
  }

  /** A version as it is first stored: a draft that its one source has used and proved. */
  predicate FreshVersion(r: RunbookRow, c: CandidateRunbook) {
    && r.key == RunbookKey(c.orgId, c.agentId, c.name) && r.steps == c.steps
    && r.tally == Tally(1, 0, Draft) && r.usage == 1 && RateIsShare(r)
  }

  /** Every row is as it was, but for at most one of the candidate's name that took the
      outcome, or was retired for a fresh version. */
  ghost predicate OneRowMoved(t: Tables, u: Tables, c: CandidateRunbook, newId: int) {
    && t.runbooks.Keys <= u.runbooks.Keys <= t.runbooks.Keys + {newId}
    && (newId in u.runbooks ==> FreshVersion(u.runbooks[newId], c))
    && (forall id :: id in t.runbooks && u.runbooks[id] != t.runbooks[id] ==>
          && t.runbooks[id].key == RunbookKey(c.orgId, c.agentId, c.name)
          && (forall other :: other in t.runbooks && t.runbooks[other].key == t.runbooks[id].key ==>
                t.runbooks[other].version <= t.runbooks[id].version)
          && (if newId in u.runbooks
              then u.runbooks[id] == t.runbooks[id].(tally := t.runbooks[id].tally.(status := Deprecated))
                   && u.runbooks[newId].version == t.runbooks[id].version + 1
              else TookOne(t.runbooks[id], u.runbooks[id], c.outcome == Success)))
  }

  lemma CreditMovesOne(t: Tables, u: Tables, c: CandidateRunbook, newId: int, id: int)
    requires newId !in t.runbooks && IsLatest(t, KeyOf(c), id)
    requires id in u.runbooks && u.runbooks == t.runbooks[id := u.runbooks[id]]
    requires TookOne(t.runbooks[id], u.runbooks[id], c.outcome == Success)
    ensures OneRowMoved(t, u, c, newId)
  {}

  lemma PublishMovesOne(t: Tables, c: CandidateRunbook, prior: Option<int>, newId: int)
    requires newId !in t.runbooks && (prior.Some? ==> IsLatest(t, KeyOf(c), prior.value))
    ensures OneRowMoved(t, Publish(t, prior, c, newId), c, newId)
  {
    assert Publish(t, prior, c, newId).runbooks[newId].successRate == 1.0;
  }

  lemma ApplyMovesOneRow(reinforcements: nat, t: Tables, c: CandidateRunbook, newId: int)
    requires Sound(t) && newId !in t.runbooks
    ensures var u := ApplySql(reinforcements, t, c, newId); u.Some? ==> OneRowMoved(t, u.value, c, newId)
  {
    var latest := Latest(t, KeyOf(c));
    var u := ApplySql(reinforcements, t, c, newId);
    LatestExists(t, KeyOf(c));
    if u.None? || u.value == t {
    } else if c.outcome != Success || (latest.Some? && t.runbooks[latest.value].steps == c.steps) {
      CreditedTookOne(reinforcements, t.runbooks[latest.value]);
      CreditMovesOne(t, u.value, c, newId, latest.value);
    } else {
      PublishMovesOne(t, c, latest, newId);
    }
  }

  lemma CreditedTookOne(reinforcements: nat, r: RunbookRow)
    ensures TookOne(r, WeakenRow(r), false) && TookOne(r, ReinforceRow(reinforcements, r), true)
  {
    ShareTimesWhole(r.tally.successes, r.usage + 1);
    ShareTimesWhole(r.tally.successes + 1, r.usage + 1);
  }

  /** Every use so far was an outcome, and the rate is the share of successes among them. */
  predicate RateIsEvidence(r: RunbookRow) {
    && r.usage == r.tally.successes + r.tally.failures > 0
    && r.successRate == r.tally.successes as real / (r.tally.successes + r.tally.failures) as real
  }

  lemma ShareIsRate(r: RunbookRow)
    requires RateIsShare(r) && r.usage == r.tally.successes + r.tally.failures > 0
    ensures RateIsEvidence(r)
  {}

  lemma MoveKeepsEvidence(t: Tables, u: Tables, c: CandidateRunbook, newId: int)
    requires OneRowMoved(t, u, c, newId) && newId !in t.runbooks
    requires forall id :: id in t.runbooks ==> RateIsEvidence(t.runbooks[id])
    ensures forall id :: id in u.runbooks ==> RateIsEvidence(u.runbooks[id])
  {
    forall id | id in u.runbooks ensures RateIsEvidence(u.runbooks[id]) {
      if id == newId {
        ShareIsRate(u.runbooks[id]);
      } else if u.runbooks[id] != t.runbooks[id] && newId !in u.runbooks {
        ShareIsRate(u.runbooks[id]);
      }
    }
  }

  ghost predicate AllEvidence(t: Tables) {
    forall id :: id in t.runbooks ==> RateIsEvidence(t.runbooks[id])
  }

  lemma ApplyKeepsEvidence(reinforcements: nat, t: Tables, c: CandidateRunbook, newId: int)
    requires Sound(t) && newId !in t.runbooks && AllEvidence(t)
    ensures var u := ApplySql(reinforcements, t, c, newId); u.Some? ==> AllEvidence(u.value)
  {
    ApplyMovesOneRow(reinforcements, t, c, newId);
    var u := ApplySql(reinforcements, t, c, newId);
    if u.Some? { MoveKeepsEvidence(t, u.value, c, newId); }
  }

  predicate NoUse(ops: seq<SqlOp>) { forall n :: 0 <= n < |ops| ==> ops[n].Apply? }

  /** While no remediation uses a runbook, every stored rate is the share of successes among the
      outcomes on record. */
  lemma {:induction false} RatesAreEvidence(reinforcements: nat, ops: seq<SqlOp>)
    requires FreshIds(reinforcements, NO_ROWS, ops) && NoUse(ops)
    ensures AllEvidence(RunSql(reinforcements, NO_ROWS, ops))
  {
    if ops != [] {
      var front, last := ops[..|ops| - 1], ops[|ops| - 1];
      FreshFront(reinforcements, NO_ROWS, ops);
      RatesAreEvidence(reinforcements, front);
      StoreAlwaysSound(reinforcements, front);
      ApplyKeepsEvidence(reinforcements, RunSql(reinforcements, NO_ROWS, front), last.candidate, last.newId);
    }
  }

  /** How often a remediation used this version. */
  ghost function Uses(reinforcements: nat, ops: seq<SqlOp>, id: int): nat {
    if ops == [] then 0
    else
      var front, last := ops[..|ops| - 1], ops[|ops| - 1];
      Uses(reinforcements, front, id)
      + if last == Use(id) && id in RunSql(reinforcements, NO_ROWS, front).runbooks then 1 else 0
  }

  predicate UsedOf(r: RunbookRow, uses: nat) { r.usage == r.tally.successes + r.tally.failures + uses }

  lemma MoveKeepsUsage(t: Tables, u: Tables, c: CandidateRunbook, newId: int, id: int, uses: nat)
    requires OneRowMoved(t, u, c, newId) && newId !in t.runbooks
    requires if id in t.runbooks then UsedOf(t.runbooks[id], uses) else uses == 0
    ensures if id in u.runbooks then UsedOf(u.runbooks[id], uses) else uses == 0
  {}

  /** A version's usage is the outcomes it took and the remediations that used it. */
  lemma {:induction false} UsageIsEvidenceAndUses(reinforcements: nat, ops: seq<SqlOp>, id: int)
    requires FreshIds(reinforcements, NO_ROWS, ops)
    ensures var t := RunSql(reinforcements, NO_ROWS, ops);
            var uses := Uses(reinforcements, ops, id);
            if id in t.runbooks then UsedOf(t.runbooks[id], uses) else uses == 0
  {
    if ops != [] {
      var front, last := ops[..|ops| - 1], ops[|ops| - 1];
      var t := RunSql(reinforcements, NO_ROWS, front);
      FreshFront(reinforcements, NO_ROWS, ops);
      UsageIsEvidenceAndUses(reinforcements, front, id);
      match last
      case Use(_) =>
      case Apply(c, newId) =>
        StoreAlwaysSound(reinforcements, front);
        ApplyMovesOneRow(reinforcements, t, c, newId);
        var u := ApplySql(reinforcements, t, c, newId);
        if u.Some? { MoveKeepsUsage(t, u.value, c, newId, id, Uses(reinforcements, front, id)); }
    }
  }

  /** The recall ranker's usage, provenance and counterexample gates at their defaults. */
  ghost predicate PassesCountGates(t: Tables, id: int)
    requires id in t.runbooks
  {
    Ranker.CountsPass(Ranker.DEFAULT_POLICY, t.runbooks[id].usage,
                      Tallied(t.provenance, id, true), Tallied(t.provenance, id, false))
  }

  /** Recall never has to reject an active runbook on its counts. */
  lemma ActivePassesCountGates(t: Tables, id: int)
    requires Sound(t) && id in t.runbooks && t.runbooks[id].tally.status == Active
    ensures PassesCountGates(t, id)
  {
    var positive, negative := Tallied(t.provenance, id, true), Tallied(t.provenance, id, false);
    assert RowSound(t.runbooks[id]);
    HalfAtMost(negative, positive + negative);
  }

  lemma HalfAtMost(part: nat, whole: nat)
    requires 2 * part < whole
    ensures part as real / whole as real <= 0.5
  {}

  class CockroachRunbookRepository {
    const reinforcementsToActivate: nat
    var runbooks: map<int, RunbookRow>
    var provenance: seq<ProvenanceRow>

    ghost function State(): Tables
      reads this
    {
      Tables(runbooks, provenance)
    }

    constructor (reinforcements: nat)
      requires reinforcements >= 1
      ensures reinforcementsToActivate == reinforcements
      ensures State() == NO_ROWS && Sound(State())
    {
      reinforcementsToActivate := reinforcements;
      runbooks, provenance := map[], [];
    }

    /** ORDER BY version DESC LIMIT 1 FOR UPDATE */
    method FindLatest(key: RunbookKey) returns (latest: Option<int>)
      requires VersionsDiffer(State())
      ensures latest == Latest(State(), key)
    {
      latest := None;
      LatestExists(State(), key);
      if id :| id in runbooks && IsLatest(Tables(runbooks, provenance), key, id) {
        LatestIsUnique(State(), key, id, Latest(State(), key).value);
        latest := Some(id);
      }
    }

    /** One version takes the outcome, and its provenance row is written. */
    method Credit(id: int, candidate: CandidateRunbook, role: Role)
      requires id in runbooks && role != Source
      modifies this
      ensures State() == Cite(old(State()).(runbooks := old(runbooks)[id := Taken(reinforcementsToActivate, old(runbooks)[id], role)]),
                              id, candidate, role)
    {
      runbooks := runbooks[id := Taken(reinforcementsToActivate, runbooks[id], role)];
      provenance := provenance + [ProvenanceRow(id, candidate.incidentId, role)];
    }

    /** A new version; the one it replaces is retired. */
    method Create(prior: Option<int>, candidate: CandidateRunbook, newId: int)
      requires prior.Some? ==> prior.value in runbooks
      modifies this
      ensures State() == Publish(old(State()), prior, candidate, newId)
    {
      var version := 1;
      if prior != None {
        version := runbooks[prior.value].version + 1;
        runbooks := runbooks[prior.value := Retire(runbooks[prior.value])];
      }
      runbooks := runbooks[newId := FirstDraft(candidate, version)];
      provenance := provenance + [ProvenanceRow(newId, candidate.incidentId, Source)];
    }

    /** One serializable transaction; `newId` is the id the INSERT would generate. A result
        of None is the refused embedding, with everything rolled back. */
    method Apply(candidate: CandidateRunbook, newId: int) returns (result: Option<SqlMutation>)
      requires Sound(State()) && newId !in runbooks
      modifies this
      ensures Sound(State())
      ensures var after := ApplySql(reinforcementsToActivate, old(State()), candidate, newId);
              if after == None then result == None && State() == old(State())
              else result.Some? && State() == after.value
      ensures result.Some? && result.value.runbookId.Some? ==> Describes(result.value, State(), KeyOf(candidate))
      ensures result.Some? ==> (result.value.idempotentReplay <==> Recorded(old(State()), KeyOf(candidate), candidate.incidentId))
      ensures result.Some? ==> Names(result.value, old(State()), State(), KeyOf(candidate))
    {
      var key := KeyOf(candidate);
      ApplyKeepsSound(reinforcementsToActivate, State(), candidate, newId);
      if i :| 0 <= i < |provenance| && RecordedAt(Tables(runbooks, provenance), key, candidate.incidentId, i) {
        var id := provenance[i].runbookId;
        return Some(Mutation(Noop, id, runbooks[id], true));
      }
      var latest := FindLatest(key);
      LatestExists(State(), key);
      if candidate.outcome != Success {
        if latest == None {
          return Some(SqlMutation(IgnoredCounterexample, None, 0, 0, 0, None, false));
        }
        Credit(latest.value, candidate, Counterexample);
        return Some(Mutation(Weakened, latest.value, runbooks[latest.value], false));
      }
      if latest == None || runbooks[latest.value].steps != candidate.steps {
        if |candidate.embedding| != EMBEDDING_DIMENSIONS {
          return None;
        }
        Create(latest, candidate, newId);
        return Some(Mutation(Operation.Create, newId, runbooks[newId], false));
      }
      Credit(latest.value, candidate, Reinforcement);
      result := Some(Mutation(Reinforced, latest.value, runbooks[latest.value], false));
    }
  }

  function Taken(reinforcements: nat, row: RunbookRow, role: Role): RunbookRow {
    if role == Counterexample then WeakenRow(row) else ReinforceRow(reinforcements, row)
  }

  function Mutation(operation: Operation, id: int, row: RunbookRow, replay: bool): SqlMutation {
    SqlMutation(operation, Some(id), row.version, row.tally.successes, row.tally.failures, Some(row.tally.status), replay)
  }

  /** The operation that the answer names is the one that happened to the row it is about. */
  predicate Names(m: SqlMutation, t: Tables, u: Tables, key: RunbookKey) {
    if m.runbookId == None then m == SqlMutation(IgnoredCounterexample, None, 0, 0, 0, None, false) && u == t && !HasName(t, key)
    else
      var id := m.runbookId.value;
      && id in u.runbooks && u.runbooks[id].key == key
      && match m.operation
         case Create => id !in t.runbooks
         case Weakened => id in t.runbooks && u.runbooks[id].tally.failures == t.runbooks[id].tally.failures + 1
         case Reinforced => id in t.runbooks && u.runbooks[id].tally.successes == t.runbooks[id].tally.successes + 1
         case Noop => u == t && m.idempotentReplay
         case IgnoredCounterexample => false
  }

  /** The answer is about a stored version of this name, as it now is. */
  predicate Describes(m: SqlMutation, t: Tables, key: RunbookKey)
    requires m.runbookId.Some?
  {
    var id := m.runbookId.value;
    && id in t.runbooks && t.runbooks[id].key == key
    && m == Mutation(m.operation, id, t.runbooks[id], m.idempotentReplay)
  }
}
