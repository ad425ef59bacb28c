/** Replaying a window against the SQL repository: the documentation promises that no
    replay counts an incident twice, which holds, and that a replay therefore leaves the
    counters alone, which holds exactly when no ignored counterexample was overtaken by a
    success of the same name. */
module SqlReplay {
  import opened Contracts
  import opened RunbookStatus
  import opened RunbookRepository
  import opened SqlRunbooks

  ghost function Applied(reinforcements: nat, t: Tables, c: CandidateRunbook, newId: int): Tables {
    var after := ApplySql(reinforcements, t, c, newId);
    if after == None then t else after.value
  }

  // ---- One application ----------------------------------------------------

  /** An application changes nothing iff the incident is on record for the name, or there
      is nothing to weaken, or the new version is refused. */
  lemma ReplayIsIdleIff(reinforcements: nat, t: Tables, c: CandidateRunbook, newId: int)
    requires Sound(t)
    ensures Applied(reinforcements, t, c, newId) == t <==>
            || Recorded(t, KeyOf(c), c.incidentId)
            || (c.outcome != Success && !HasName(t, KeyOf(c)))
            || ApplySql(reinforcements, t, c, newId) == None
  {
    LatestExists(t, KeyOf(c));
    var after := Applied(reinforcements, t, c, newId);
    assert after.provenance == t.provenance || |after.provenance| == |t.provenance| + 1;
  }

  /** Rows are added and updated, never renamed or removed; provenance only grows. */
  ghost predicate Grows(t: Tables, u: Tables) {
    && t.runbooks.Keys <= u.runbooks.Keys
    && (forall id :: id in t.runbooks ==> u.runbooks[id].key == t.runbooks[id].key)
    && t.provenance <= u.provenance
  }

  lemma GrowthRemembers(t: Tables, u: Tables, key: RunbookKey, incident: int)
    requires Grows(t, u)
    ensures HasName(t, key) ==> HasName(u, key)
    ensures Recorded(t, key, incident) ==> Recorded(u, key, incident)
  {
    if Recorded(t, key, incident) {
      var i :| 0 <= i < |t.provenance| && RecordedAt(t, key, incident, i);
      assert u.provenance[i] == t.provenance[i];
      assert RecordedAt(u, key, incident, i);
    }
  }

  /** The id is new, or this application does not insert a version. */
  ghost predicate SafeId(t: Tables, c: CandidateRunbook, newId: int) {
    newId !in t.runbooks || c.outcome != Success || Recorded(t, KeyOf(c), c.incidentId)
  }

  lemma ApplyGrows(reinforcements: nat, t: Tables, c: CandidateRunbook, newId: int)
    requires SafeId(t, c, newId)
    ensures Grows(t, Applied(reinforcements, t, c, newId))
    ensures Applied(reinforcements, t, c, newId).runbooks.Keys <= t.runbooks.Keys + {newId}
    ensures c.outcome != Success ==> Applied(reinforcements, t, c, newId).runbooks.Keys == t.runbooks.Keys
  {
    LatestExists(t, KeyOf(c));
  }

  lemma RecordedHasName(t: Tables, key: RunbookKey, incident: int)
    ensures Recorded(t, key, incident) ==> HasName(t, key)
  {
    if Recorded(t, key, incident) {
      var i :| 0 <= i < |t.provenance| && RecordedAt(t, key, incident, i);
      assert t.provenance[i].runbookId in t.runbooks;
    }
  }

  lemma NamesAfter(reinforcements: nat, t: Tables, c: CandidateRunbook, newId: int, key: RunbookKey)
    requires SafeId(t, c, newId) && |c.embedding| == EMBEDDING_DIMENSIONS
    ensures HasName(Applied(reinforcements, t, c, newId), key) <==>
            HasName(t, key) || (c.outcome == Success && KeyOf(c) == key)
  {
    var u := Applied(reinforcements, t, c, newId);
    LatestExists(t, KeyOf(c));
    ApplyGrows(reinforcements, t, c, newId);
    GrowthRemembers(t, u, key, c.incidentId);
    RecordedHasName(t, KeyOf(c), c.incidentId);
    if HasName(u, key) && !HasName(t, key) {
      var id :| id in u.runbooks && u.runbooks[id].key == key;
    }
    if c.outcome == Success && !HasName(t, KeyOf(c)) {
      assert newId in u.runbooks && u.runbooks[newId].key == KeyOf(c);
    }
  }

  lemma OldRecords(t: Tables, u: Tables, key: RunbookKey, incident: int)
    requires Grows(t, u) && ProvenanceResolves(t)
    ensures forall i :: 0 <= i < |t.provenance| ==> (RecordedAt(u, key, incident, i) <==> RecordedAt(t, key, incident, i))
  {
    forall i | 0 <= i < |t.provenance| ensures RecordedAt(u, key, incident, i) <==> RecordedAt(t, key, incident, i) {
      assert u.provenance[i] == t.provenance[i];
    }
  }

  lemma RecordsAfter(reinforcements: nat, t: Tables, c: CandidateRunbook, newId: int, key: RunbookKey, incident: int)
    requires ProvenanceResolves(t)
    requires SafeId(t, c, newId) && |c.embedding| == EMBEDDING_DIMENSIONS
    ensures Recorded(Applied(reinforcements, t, c, newId), key, incident) <==>
            || Recorded(t, key, incident)
            || (KeyOf(c) == key && c.incidentId == incident && (c.outcome == Success || HasName(t, key)))
    ensures ProvenanceResolves(Applied(reinforcements, t, c, newId))
  {
    var u := Applied(reinforcements, t, c, newId);
    LatestExists(t, KeyOf(c));
    ApplyGrows(reinforcements, t, c, newId);
    GrowthRemembers(t, u, key, incident);
    var n := |t.provenance|;
    if Recorded(u, key, incident) && !Recorded(t, key, incident) {
      var i :| 0 <= i < |u.provenance| && RecordedAt(u, key, incident, i);
      OldRecords(t, u, key, incident);
      assert i == n;
    }
    if u.provenance != t.provenance {
      assert RecordedAt(u, KeyOf(c), c.incidentId, n);
    }
  }

  // ---- A window's candidates ----------------------------------------------

  /** Candidates from..to of a window, candidate m using the generated id ids[m]. */
  ghost function RunWindow(reinforcements: nat, t: Tables, cs: seq<CandidateRunbook>, ids: seq<int>, to: nat): Tables
    requires to <= |cs| == |ids|
  {
    if to == 0 then t
    else Applied(reinforcements, RunWindow(reinforcements, t, cs, ids, to - 1), cs[to - 1], ids[to - 1])
  }

  /** Candidates with full embeddings and generated ids that are new. */
  ghost predicate Stream(t: Tables, cs: seq<CandidateRunbook>, ids: seq<int>) {
    && |cs| == |ids|
    && (forall i :: 0 <= i < |cs| ==> |cs[i].embedding| == EMBEDDING_DIMENSIONS)
    && (forall i, j :: 0 <= i < j < |ids| ==> ids[i] != ids[j])
    && (forall i :: 0 <= i < |ids| ==> ids[i] !in t.runbooks)
  }

  predicate OncePerIncident(cs: seq<CandidateRunbook>) {
    forall i, j :: 0 <= i < j < |cs| ==> !(cs[i].orgId == cs[j].orgId && cs[i].incidentId == cs[j].incidentId)
  }

  /** The candidates of one window: one per incident, as the grouping guarantees. */
  ghost predicate Window(t: Tables, cs: seq<CandidateRunbook>, ids: seq<int>) {
    Stream(t, cs, ids) && OncePerIncident(cs)
  }

  ghost predicate SucceededBefore(cs: seq<CandidateRunbook>, key: RunbookKey, n: nat) {
    exists j :: 0 <= j < n && j < |cs| && cs[j].outcome == Success && KeyOf(cs[j]) == key
  }

  ghost predicate ListedBefore(t: Tables, cs: seq<CandidateRunbook>, key: RunbookKey, incident: int, n: nat) {
    exists j :: 0 <= j < n && j < |cs| && ListedAt(t, cs, key, incident, j)
  }

  ghost predicate ListedAt(t: Tables, cs: seq<CandidateRunbook>, key: RunbookKey, incident: int, j: nat)
    requires j < |cs|
  {
    && KeyOf(cs[j]) == key && cs[j].incidentId == incident
    && (cs[j].outcome == Success || HasName(t, key) || SucceededBefore(cs, key, j))
  }

  ghost function Used(ids: seq<int>, n: nat): set<int>
    requires n <= |ids|
  {
    set x | x in ids[..n]
  }

  /** The tables after the first n candidates: which names and which incidents they hold. */
  ghost predicate PassedNames(t: Tables, u: Tables, cs: seq<CandidateRunbook>, n: nat) {
    forall key :: HasName(u, key) <==> HasName(t, key) || SucceededBefore(cs, key, n)
  }

  ghost predicate PassedRecords(t: Tables, u: Tables, cs: seq<CandidateRunbook>, n: nat) {
    forall key, incident :: Recorded(u, key, incident) <==> Recorded(t, key, incident) || ListedBefore(t, cs, key, incident, n)
  }

  ghost predicate PassedIds(t: Tables, u: Tables, ids: seq<int>, n: nat)
    requires n <= |ids|
  {
    Grows(t, u) && ProvenanceResolves(u) && u.runbooks.Keys <= t.runbooks.Keys + Used(ids, n)
  }

  lemma PassNames(reinforcements: nat, t: Tables, before: Tables, cs: seq<CandidateRunbook>, newId: int, n: nat)
    requires 0 < n <= |cs| && PassedNames(t, before, cs, n - 1)
    requires SafeId(before, cs[n - 1], newId) && |cs[n - 1].embedding| == EMBEDDING_DIMENSIONS
    ensures PassedNames(t, Applied(reinforcements, before, cs[n - 1], newId), cs, n)
  {
    var u := Applied(reinforcements, before, cs[n - 1], newId);
    forall key ensures HasName(u, key) <==> HasName(t, key) || SucceededBefore(cs, key, n) {
      NamesAfter(reinforcements, before, cs[n - 1], newId, key);
      SucceededOneMore(cs, key, n);
    }
  }

  lemma PassRecords(reinforcements: nat, t: Tables, before: Tables, cs: seq<CandidateRunbook>, newId: int, n: nat)
    requires 0 < n <= |cs| && PassedNames(t, before, cs, n - 1) && PassedRecords(t, before, cs, n - 1)
    requires ProvenanceResolves(before)
    requires SafeId(before, cs[n - 1], newId) && |cs[n - 1].embedding| == EMBEDDING_DIMENSIONS
    ensures PassedRecords(t, Applied(reinforcements, before, cs[n - 1], newId), cs, n)
  {
    var u := Applied(reinforcements, before, cs[n - 1], newId);
    forall key, incident ensures Recorded(u, key, incident) <==> Recorded(t, key, incident) || ListedBefore(t, cs, key, incident, n) {
      PassRecord(reinforcements, t, before, cs, newId, n, key, incident);
    }
  }

  lemma PassRecord(reinforcements: nat, t: Tables, before: Tables, cs: seq<CandidateRunbook>, newId: int, n: nat,
                   key: RunbookKey, incident: int)
    requires 0 < n <= |cs| && PassedNames(t, before, cs, n - 1) && PassedRecords(t, before, cs, n - 1)
    requires ProvenanceResolves(before)
    requires SafeId(before, cs[n - 1], newId) && |cs[n - 1].embedding| == EMBEDDING_DIMENSIONS
    ensures Recorded(Applied(reinforcements, before, cs[n - 1], newId), key, incident)
            <==> Recorded(t, key, incident) || ListedBefore(t, cs, key, incident, n)
  {
    RecordsAfter(reinforcements, before, cs[n - 1], newId, key, incident);
    ListedOneMore(t, cs, key, incident, n);
    assert HasName(before, key) <==> HasName(t, key) || SucceededBefore(cs, key, n - 1);
    assert Recorded(before, key, incident) <==> Recorded(t, key, incident) || ListedBefore(t, cs, key, incident, n - 1);
  }

  lemma PassIds(reinforcements: nat, t: Tables, before: Tables, cs: seq<CandidateRunbook>, ids: seq<int>, n: nat)
    requires Stream(t, cs, ids) && 0 < n <= |cs| && PassedIds(t, before, ids, n - 1)
    ensures SafeId(before, cs[n - 1], ids[n - 1])
    ensures PassedIds(t, Applied(reinforcements, before, cs[n - 1], ids[n - 1]), ids, n)
  {
    var c := cs[n - 1];
    assert ids[..n] == ids[..n - 1] + [ids[n - 1]];
    assert SafeId(before, c, ids[n - 1]);
    ApplyGrows(reinforcements, before, c, ids[n - 1]);
    RecordsAfter(reinforcements, before, c, ids[n - 1], KeyOf(c), c.incidentId);
  }

  lemma {:induction false} FirstPass(reinforcements: nat, t: Tables, cs: seq<CandidateRunbook>, ids: seq<int>, n: nat)
    requires Stream(t, cs, ids) && ProvenanceResolves(t) && n <= |cs|
    ensures var u := RunWindow(reinforcements, t, cs, ids, n);
            PassedIds(t, u, ids, n) && PassedNames(t, u, cs, n) && PassedRecords(t, u, cs, n)
  {
    if n > 0 {
      FirstPass(reinforcements, t, cs, ids, n - 1);
      var before := RunWindow(reinforcements, t, cs, ids, n - 1);
      PassIds(reinforcements, t, before, cs, ids, n);
      PassNames(reinforcements, t, before, cs, ids[n - 1], n);
      PassRecords(reinforcements, t, before, cs, ids[n - 1], n);
    }
  }

  lemma SucceededOneMore(cs: seq<CandidateRunbook>, key: RunbookKey, n: nat)
    requires 0 < n <= |cs|
    ensures SucceededBefore(cs, key, n) <==>
            SucceededBefore(cs, key, n - 1) || (cs[n - 1].outcome == Success && KeyOf(cs[n - 1]) == key)
  {}

  lemma ListedOneMore(t: Tables, cs: seq<CandidateRunbook>, key: RunbookKey, incident: int, n: nat)
    requires 0 < n <= |cs|
    ensures ListedBefore(t, cs, key, incident, n) <==>
            ListedBefore(t, cs, key, incident, n - 1) || ListedAt(t, cs, key, incident, n - 1)
  {}

  // ---- Crash after k writes, then the whole window again -------------------

  ghost function Crashed(reinforcements: nat, t: Tables, cs: seq<CandidateRunbook>, ids: seq<int>, k: nat): Tables
    requires k <= |cs| == |ids|
  {
    RunWindow(reinforcements, t, cs, ids, k)
  }

  /** Candidate i is a counterexample that found no runbook of its name, and a success
      among the first k has created one since. */
  ghost predicate Overtaken(t: Tables, cs: seq<CandidateRunbook>, k: nat, i: nat)
    requires i < |cs|
  {
    && cs[i].outcome != Success
    && !HasName(t, KeyOf(cs[i])) && !SucceededBefore(cs, KeyOf(cs[i]), i)
    && SucceededBefore(cs, KeyOf(cs[i]), k)
  }

  lemma WrittenIsIdle(reinforcements: nat, t: Tables, cs: seq<CandidateRunbook>, ids: seq<int>, k: nat, i: nat)
    requires Window(t, cs, ids) && Sound(t) && i < k <= |cs|
    requires !Overtaken(t, cs, k, i)
    ensures Applied(reinforcements, Crashed(reinforcements, t, cs, ids, k), cs[i], ids[i])
            == Crashed(reinforcements, t, cs, ids, k)
  {
    FirstPass(reinforcements, t, cs, ids, k);
    var s := Crashed(reinforcements, t, cs, ids, k);
    LatestExists(s, KeyOf(cs[i]));
    if cs[i].outcome == Success || HasName(t, KeyOf(cs[i])) || SucceededBefore(cs, KeyOf(cs[i]), i) {
      assert ListedAt(t, cs, KeyOf(cs[i]), cs[i].incidentId, i);
      assert Recorded(s, KeyOf(cs[i]), cs[i].incidentId);
    }
  }

  lemma {:induction false} IdlePrefix(reinforcements: nat, s: Tables, cs: seq<CandidateRunbook>, ids: seq<int>, m: nat)
    requires m <= |cs| == |ids|
    requires forall i :: 0 <= i < m ==> Applied(reinforcements, s, cs[i], ids[i]) == s
    ensures RunWindow(reinforcements, s, cs, ids, m) == s
  {
    if m > 0 { IdlePrefix(reinforcements, s, cs, ids, m - 1); }
  }

  /** Two runs that meet after candidate k stay together. */
  lemma RunsOneMore(reinforcements: nat, s: Tables, u: Tables, cs: seq<CandidateRunbook>, ids: seq<int>, m: nat)
    requires 0 < m <= |cs| == |ids| && RunWindow(reinforcements, s, cs, ids, m - 1) == u
    ensures RunWindow(reinforcements, s, cs, ids, m) == Applied(reinforcements, u, cs[m - 1], ids[m - 1])
  {}

  lemma OneMoreTogether(reinforcements: nat, s: Tables, t: Tables, cs: seq<CandidateRunbook>, ids: seq<int>, m: nat)
    requires 0 < m <= |cs| == |ids|
    requires RunWindow(reinforcements, s, cs, ids, m - 1) == RunWindow(reinforcements, t, cs, ids, m - 1)
    ensures RunWindow(reinforcements, s, cs, ids, m) == RunWindow(reinforcements, t, cs, ids, m)
  {
    RunsOneMore(reinforcements, s, RunWindow(reinforcements, s, cs, ids, m - 1), cs, ids, m);
    RunsOneMore(reinforcements, t, RunWindow(reinforcements, s, cs, ids, m - 1), cs, ids, m);
  }

  lemma RunsStayTogether(reinforcements: nat, s: Tables, t: Tables, cs: seq<CandidateRunbook>, ids: seq<int>, k: nat, m: nat)
    requires k <= m <= |cs| == |ids|
    requires RunWindow(reinforcements, s, cs, ids, k) == RunWindow(reinforcements, t, cs, ids, k)
    ensures RunWindow(reinforcements, s, cs, ids, m) == RunWindow(reinforcements, t, cs, ids, m)
  {
    var n := k;
    while n < m
      invariant k <= n <= m
      invariant RunWindow(reinforcements, s, cs, ids, n) == RunWindow(reinforcements, t, cs, ids, n)
    {
      n := n + 1;
      OneMoreTogether(reinforcements, s, t, cs, ids, n);
    }
  }

  /** The tables hold no generated id that candidate m could still need. */
  ghost predicate IdsAhead(t: Tables, u: Tables, ids: seq<int>, k: nat, m: nat)
    requires k <= |ids| && m <= |ids|
  {
    u.runbooks.Keys <= t.runbooks.Keys + Used(ids, if m <= k then k else m)
  }

  lemma SecondPassIdIsSafe(t: Tables, s: Tables, u: Tables, cs: seq<CandidateRunbook>, ids: seq<int>, k: nat, m: nat)
    requires Window(t, cs, ids) && k <= |cs| && m < |cs|
    requires m < k && cs[m].outcome == Success ==> Recorded(s, KeyOf(cs[m]), cs[m].incidentId)
    requires Grows(s, u) && IdsAhead(t, u, ids, k, m)
    ensures SafeId(u, cs[m], ids[m])
  {
    if m < k {
      GrowthRemembers(s, u, KeyOf(cs[m]), cs[m].incidentId);
    } else {
      assert ids[m] !in Used(ids, m) && Used(ids, k) <= Used(ids, m);
    }
  }

  lemma SecondPassStep(reinforcements: nat, t: Tables, s: Tables, u: Tables, cs: seq<CandidateRunbook>, ids: seq<int>, k: nat, m: nat)
    requires Window(t, cs, ids) && k <= |cs| && m < |cs|
    requires m < k && cs[m].outcome == Success ==> Recorded(u, KeyOf(cs[m]), cs[m].incidentId)
    requires Grows(s, u) && ProvenanceResolves(u) && IdsAhead(t, u, ids, k, m)
    requires SafeId(u, cs[m], ids[m])
    ensures var v := Applied(reinforcements, u, cs[m], ids[m]);
            Grows(s, v) && ProvenanceResolves(v) && IdsAhead(t, v, ids, k, m + 1)
  {
    ApplyGrows(reinforcements, u, cs[m], ids[m]);
    RecordsAfter(reinforcements, u, cs[m], ids[m], KeyOf(cs[m]), cs[m].incidentId);
    if m >= k {
      assert ids[..m + 1] == ids[..m] + [ids[m]];
      assert Used(ids, m + 1) == Used(ids, m) + {ids[m]};
      assert Used(ids, k) <= Used(ids, m);
    }
  }

  /** Every success among the first k is on record. */
  ghost predicate WroteSuccesses(s: Tables, cs: seq<CandidateRunbook>, k: nat) {
    forall j :: 0 <= j < k && j < |cs| && cs[j].outcome == Success ==> Recorded(s, KeyOf(cs[j]), cs[j].incidentId)
  }

  lemma SecondPassOne(reinforcements: nat, t: Tables, s: Tables, before: Tables, cs: seq<CandidateRunbook>, ids: seq<int>, k: nat, m: nat)
    requires Window(t, cs, ids) && k <= |cs| && m < |cs| && WroteSuccesses(s, cs, k)
    requires Grows(s, before) && ProvenanceResolves(before) && IdsAhead(t, before, ids, k, m)
    ensures SafeId(before, cs[m], ids[m])
    ensures var v := Applied(reinforcements, before, cs[m], ids[m]);
            Grows(s, v) && ProvenanceResolves(v) && IdsAhead(t, v, ids, k, m + 1)
  {
    GrowthRemembers(s, before, KeyOf(cs[m]), cs[m].incidentId);
    SecondPassIdIsSafe(t, s, before, cs, ids, k, m);
    SecondPassStep(reinforcements, t, s, before, cs, ids, k, m);
  }

  ghost predicate AheadOf(t: Tables, s: Tables, u: Tables, ids: seq<int>, k: nat, m: nat)
    requires k <= |ids| && m <= |ids|
  {
    Grows(s, u) && ProvenanceResolves(u) && IdsAhead(t, u, ids, k, m)
  }

  lemma PassTo(reinforcements: nat, t: Tables, s: Tables, u: Tables, v: Tables, cs: seq<CandidateRunbook>, ids: seq<int>, k: nat, m: nat)
    requires Window(t, cs, ids) && k <= |cs| && m < |cs| && WroteSuccesses(s, cs, k) && AheadOf(t, s, u, ids, k, m)
    requires v == Applied(reinforcements, u, cs[m], ids[m])
    ensures AheadOf(t, s, v, ids, k, m + 1)
  {
    SecondPassOne(reinforcements, t, s, u, cs, ids, k, m);
  }

  lemma {:induction false} PassFrom(reinforcements: nat, t: Tables, s: Tables, cs: seq<CandidateRunbook>, ids: seq<int>, k: nat, m: nat)
    requires Window(t, cs, ids) && k <= |cs| && m <= |cs| && WroteSuccesses(s, cs, k) && AheadOf(t, s, s, ids, k, 0)
    ensures AheadOf(t, s, RunWindow(reinforcements, s, cs, ids, m), ids, k, m)
  {
    if m > 0 {
      PassFrom(reinforcements, t, s, cs, ids, k, m - 1);
      var u, v := RunWindow(reinforcements, s, cs, ids, m - 1), RunWindow(reinforcements, s, cs, ids, m);
      PassTo(reinforcements, t, s, u, v, cs, ids, k, m - 1);
    }
  }

  /** A pass can start over from s: what earlier passes generated they have also recorded. */
  ghost predicate Resumable(t: Tables, s: Tables, cs: seq<CandidateRunbook>, ids: seq<int>, k: nat)
    requires k <= |ids|
  {
    WroteSuccesses(s, cs, k) && AheadOf(t, s, s, ids, k, 0)
  }

  lemma RecordStaysOnce(reinforcements: nat, u: Tables, c: CandidateRunbook, newId: int, key: RunbookKey, incident: int)
    requires ProvenanceResolves(u) && SafeId(u, c, newId) && Recorded(u, key, incident)
    ensures Recorded(Applied(reinforcements, u, c, newId), key, incident)
  {
    ApplyGrows(reinforcements, u, c, newId);
    GrowthRemembers(u, Applied(reinforcements, u, c, newId), key, incident);
  }

  /** Where a pass stands before candidate m. */
  lemma PassStands(reinforcements: nat, t: Tables, s: Tables, cs: seq<CandidateRunbook>, ids: seq<int>, k: nat, m: nat)
    requires Window(t, cs, ids) && k <= |cs| && Resumable(t, s, cs, ids, k) && m < |cs|
    ensures var u := RunWindow(reinforcements, s, cs, ids, m);
            && Grows(s, u) && ProvenanceResolves(u) && SafeId(u, cs[m], ids[m])
            && RunWindow(reinforcements, s, cs, ids, m + 1) == Applied(reinforcements, u, cs[m], ids[m])
  {
    PassFrom(reinforcements, t, s, cs, ids, k, m);
    SecondPassIdIsSafe(t, s, RunWindow(reinforcements, s, cs, ids, m), cs, ids, k, m);
    RunsOneMore(reinforcements, s, RunWindow(reinforcements, s, cs, ids, m), cs, ids, m + 1);
  }

  lemma RecordStaysToNext(reinforcements: nat, t: Tables, s: Tables, cs: seq<CandidateRunbook>, ids: seq<int>, k: nat, b: nat,
                          key: RunbookKey, incident: int)
    requires Window(t, cs, ids) && k <= |cs| && Resumable(t, s, cs, ids, k) && 0 < b <= |cs|
    requires Recorded(RunWindow(reinforcements, s, cs, ids, b - 1), key, incident)
    ensures Recorded(RunWindow(reinforcements, s, cs, ids, b), key, incident)
  {
    PassStands(reinforcements, t, s, cs, ids, k, b - 1);
    RecordStaysOnce(reinforcements, RunWindow(reinforcements, s, cs, ids, b - 1), cs[b - 1], ids[b - 1], key, incident);
  }

  lemma RecordStays(reinforcements: nat, t: Tables, s: Tables, cs: seq<CandidateRunbook>, ids: seq<int>, k: nat, a: nat, b: nat,
                    key: RunbookKey, incident: int)
    requires Window(t, cs, ids) && k <= |cs| && Resumable(t, s, cs, ids, k) && a <= b <= |cs|
    requires Recorded(RunWindow(reinforcements, s, cs, ids, a), key, incident)
    ensures Recorded(RunWindow(reinforcements, s, cs, ids, b), key, incident)
  {
    var n := a;
    while n < b
      invariant a <= n <= b
      invariant Recorded(RunWindow(reinforcements, s, cs, ids, n), key, incident)
    {
      n := n + 1;
      RecordStaysToNext(reinforcements, t, s, cs, ids, k, n, key, incident);
    }
  }

  lemma SuccessIsRecorded(reinforcements: nat, u: Tables, c: CandidateRunbook, newId: int)
    requires ProvenanceResolves(u) && SafeId(u, c, newId) && |c.embedding| == EMBEDDING_DIMENSIONS && c.outcome == Success
    ensures Recorded(Applied(reinforcements, u, c, newId), KeyOf(c), c.incidentId)
  {
    RecordsAfter(reinforcements, u, c, newId, KeyOf(c), c.incidentId);
  }

  lemma SuccessIsWritten(reinforcements: nat, t: Tables, s: Tables, cs: seq<CandidateRunbook>, ids: seq<int>, k: nat, m: nat)
    requires Window(t, cs, ids) && k <= |cs| && Resumable(t, s, cs, ids, k) && m < |cs| && cs[m].outcome == Success
    ensures Recorded(RunWindow(reinforcements, s, cs, ids, m + 1), KeyOf(cs[m]), cs[m].incidentId)
  {
    PassStands(reinforcements, t, s, cs, ids, k, m);
    SuccessIsRecorded(reinforcements, RunWindow(reinforcements, s, cs, ids, m), cs[m], ids[m]);
  }

  lemma PassIsResumable(reinforcements: nat, t: Tables, s: Tables, cs: seq<CandidateRunbook>, ids: seq<int>, k: nat, m: nat)
    requires Window(t, cs, ids) && k <= |cs| && Resumable(t, s, cs, ids, k) && m <= |cs|
    ensures Resumable(t, RunWindow(reinforcements, s, cs, ids, m), cs, ids, if m <= k then k else m)
  {
    var u := RunWindow(reinforcements, s, cs, ids, m);
    PassFrom(reinforcements, t, s, cs, ids, k, m);
    forall j | 0 <= j < (if m <= k then k else m) && j < |cs| && cs[j].outcome == Success
      ensures Recorded(u, KeyOf(cs[j]), cs[j].incidentId)
    {
      if j < k {
        GrowthRemembers(s, u, KeyOf(cs[j]), cs[j].incidentId);
      } else {
        SuccessIsWritten(reinforcements, t, s, cs, ids, k, j);
        RecordStays(reinforcements, t, s, cs, ids, k, j + 1, m, KeyOf(cs[j]), cs[j].incidentId);
      }
    }
  }

  // ---- Any number of crashes, then the whole window -----------------------------

  predicate WithinWindow(cs: seq<CandidateRunbook>, ks: seq<nat>) {
    forall j :: 0 <= j < |ks| ==> ks[j] <= |cs|
  }

  /** The tables after crashes behind the first ks[0], ks[1], ... candidates: after each the
      window is started over. */
  ghost function CrashedAt(reinforcements: nat, t: Tables, cs: seq<CandidateRunbook>, ids: seq<int>, ks: seq<nat>): Tables
    requires |cs| == |ids| && WithinWindow(cs, ks)
  {
    if ks == [] then t
    else RunWindow(reinforcements, CrashedAt(reinforcements, t, cs, ids, ks[..|ks| - 1]), cs, ids, ks[|ks| - 1])
  }

  function Furthest(ks: seq<nat>): nat {
    if ks == [] then 0
    else
      var before := Furthest(ks[..|ks| - 1]);
      if ks[|ks| - 1] <= before then before else ks[|ks| - 1]
  }

  lemma {:induction false} FurthestIsWithin(cs: seq<CandidateRunbook>, ks: seq<nat>)
    requires WithinWindow(cs, ks)
    ensures Furthest(ks) <= |cs|
  {
    if ks != [] { FurthestIsWithin(cs, ks[..|ks| - 1]); }
  }

  lemma {:induction false} CrashesAreResumable(reinforcements: nat, t: Tables, cs: seq<CandidateRunbook>, ids: seq<int>, ks: seq<nat>)
    requires Window(t, cs, ids) && ProvenanceResolves(t) && WithinWindow(cs, ks)
    ensures Furthest(ks) <= |cs|
    ensures Resumable(t, CrashedAt(reinforcements, t, cs, ids, ks), cs, ids, Furthest(ks))
  {
    FurthestIsWithin(cs, ks);
    if ks != [] {
      var front := ks[..|ks| - 1];
      CrashesAreResumable(reinforcements, t, cs, ids, front);
      PassIsResumable(reinforcements, t, CrashedAt(reinforcements, t, cs, ids, front), cs, ids, Furthest(front), ks[|ks| - 1]);
    }
  }

  ghost predicate NoneOvertaken(t: Tables, cs: seq<CandidateRunbook>, k: nat) {
    forall i :: 0 <= i < k && i < |cs| ==> !Overtaken(t, cs, k, i)
  }

  lemma NoneOvertakenEarlier(t: Tables, cs: seq<CandidateRunbook>, k: nat, n: nat)
    requires NoneOvertaken(t, cs, n) && k <= n
    ensures NoneOvertaken(t, cs, k)
  {
    forall i | 0 <= i < k && i < |cs| ensures !Overtaken(t, cs, k, i) {
      assert !Overtaken(t, cs, n, i);
      assert SucceededBefore(cs, KeyOf(cs[i]), k) ==> SucceededBefore(cs, KeyOf(cs[i]), n);
    }
  }

  /** Starting over after k writes and coming to m leads where an uncrashed run comes. */
  lemma StartingOver(reinforcements: nat, t: Tables, cs: seq<CandidateRunbook>, ids: seq<int>, k: nat, m: nat)
    requires Window(t, cs, ids) && Sound(t) && k <= |cs| && m <= |cs| && NoneOvertaken(t, cs, k)
    ensures RunWindow(reinforcements, Crashed(reinforcements, t, cs, ids, k), cs, ids, m)
         == RunWindow(reinforcements, t, cs, ids, if m <= k then k else m)
  {
    var s := Crashed(reinforcements, t, cs, ids, k);
    forall i | 0 <= i < k ensures Applied(reinforcements, s, cs[i], ids[i]) == s {
      WrittenIsIdle(reinforcements, t, cs, ids, k, i);
    }
    if m <= k {
      IdlePrefix(reinforcements, s, cs, ids, m);
    } else {
      IdlePrefix(reinforcements, s, cs, ids, k);
      RunsStayTogether(reinforcements, s, t, cs, ids, k, m);
    }
  }

  lemma {:induction false} CrashesCatchUp(reinforcements: nat, t: Tables, cs: seq<CandidateRunbook>, ids: seq<int>, ks: seq<nat>)
    requires Window(t, cs, ids) && Sound(t) && WithinWindow(cs, ks) && NoneOvertaken(t, cs, Furthest(ks))
    ensures Furthest(ks) <= |cs|
    ensures CrashedAt(reinforcements, t, cs, ids, ks) == RunWindow(reinforcements, t, cs, ids, Furthest(ks))
  {
    FurthestIsWithin(cs, ks);
    if ks != [] {
      var front := ks[..|ks| - 1];
      NoneOvertakenEarlier(t, cs, Furthest(front), Furthest(ks));
      CrashesCatchUp(reinforcements, t, cs, ids, front);
      StartingOver(reinforcements, t, cs, ids, Furthest(front), ks[|ks| - 1]);
    }
  }

  lemma OvertakenIsUnrecorded(reinforcements: nat, t: Tables, cs: seq<CandidateRunbook>, ids: seq<int>, i: nat)
    requires Window(t, cs, ids) && Sound(t) && i < |cs| && cs[i].outcome != Success
    requires !HasName(t, KeyOf(cs[i])) && !SucceededBefore(cs, KeyOf(cs[i]), i)
    ensures !Recorded(RunWindow(reinforcements, t, cs, ids, |cs|), KeyOf(cs[i]), cs[i].incidentId)
  {
    var key, incident := KeyOf(cs[i]), cs[i].incidentId;
    FirstPass(reinforcements, t, cs, ids, |cs|);
    RecordedHasName(t, key, incident);
    assert !ListedBefore(t, cs, key, incident, |cs|) by {
      forall j | 0 <= j < |cs| && KeyOf(cs[j]) == key && cs[j].incidentId == incident ensures j == i {}
    }
  }

  lemma RestartRecordsOvertaken(reinforcements: nat, t: Tables, s: Tables, cs: seq<CandidateRunbook>, ids: seq<int>, k: nat, i: nat)
    requires Window(t, cs, ids) && k <= |cs| && i < |cs| && Resumable(t, s, cs, ids, k) && Overtaken(t, cs, k, i)
    ensures Recorded(RunWindow(reinforcements, s, cs, ids, i + 1), KeyOf(cs[i]), cs[i].incidentId)
  {
    var key, incident := KeyOf(cs[i]), cs[i].incidentId;
    var j :| 0 <= j < k && j < |cs| && cs[j].outcome == Success && KeyOf(cs[j]) == key;
    RecordedHasName(s, key, cs[j].incidentId);
    var before := RunWindow(reinforcements, s, cs, ids, i);
    PassStands(reinforcements, t, s, cs, ids, k, i);
    GrowthRemembers(s, before, key, incident);
    RecordsAfter(reinforcements, before, cs[i], ids[i], key, incident);
  }

  /** An overtaken counterexample goes unrecorded in an uncrashed run and is recorded,
      as a weakening, by the run that follows the crashes. */
  lemma OvertakenIsCountedLate(reinforcements: nat, t: Tables, cs: seq<CandidateRunbook>, ids: seq<int>, ks: seq<nat>, i: nat)
    requires Window(t, cs, ids) && Sound(t) && WithinWindow(cs, ks) && i < |cs|
    requires Overtaken(t, cs, Furthest(ks), i)
    ensures !Recorded(RunWindow(reinforcements, t, cs, ids, |cs|), KeyOf(cs[i]), cs[i].incidentId)
    ensures Recorded(RunWindow(reinforcements, CrashedAt(reinforcements, t, cs, ids, ks), cs, ids, |cs|), KeyOf(cs[i]), cs[i].incidentId)
  {
    var s := CrashedAt(reinforcements, t, cs, ids, ks);
    OvertakenIsUnrecorded(reinforcements, t, cs, ids, i);
    CrashesAreResumable(reinforcements, t, cs, ids, ks);
    RestartRecordsOvertaken(reinforcements, t, s, cs, ids, Furthest(ks), i);
    RecordStays(reinforcements, t, s, cs, ids, Furthest(ks), i + 1, |cs|, KeyOf(cs[i]), cs[i].incidentId);
  }

  /** Any number of crashes, each followed by a restart of the window (one at |cs| is a plain
      replay of a finished window), end like an uncrashed run exactly when none of the
      candidates up to the furthest crash is an overtaken counterexample. */
  lemma RestartIsInvisibleIff(reinforcements: nat, t: Tables, cs: seq<CandidateRunbook>, ids: seq<int>, ks: seq<nat>)
    requires Window(t, cs, ids) && Sound(t) && WithinWindow(cs, ks)
    ensures RunWindow(reinforcements, CrashedAt(reinforcements, t, cs, ids, ks), cs, ids, |cs|) == RunWindow(reinforcements, t, cs, ids, |cs|)
            <==> NoneOvertaken(t, cs, Furthest(ks))
  {
    if i :| 0 <= i < Furthest(ks) && i < |cs| && Overtaken(t, cs, Furthest(ks), i) {
      OvertakenIsCountedLate(reinforcements, t, cs, ids, ks, i);
    } else {
      CrashesCatchUp(reinforcements, t, cs, ids, ks);
      StartingOver(reinforcements, t, cs, ids, Furthest(ks), |cs|);
    }
  }

  /** The failing case in full: one failed and one successful incident of the same name in
      one window. Uncrashed, the new runbook is a draft; restarted after both writes, the
      counterexample that was ignored the first time deprecates it. */
  lemma RestartDeprecatesFreshRunbook(c: CandidateRunbook)
    requires |c.embedding| == EMBEDDING_DIMENSIONS
    ensures var cs := [c.(incidentId := 1, outcome := Failed), c.(incidentId := 2, outcome := Success)];
            var ids := [10, 11];
            var once := RunWindow(2, NO_ROWS, cs, ids, 2);
            var again := RunWindow(2, once, cs, ids, 2);
            && 11 in once.runbooks && once.runbooks[11].tally == Tally(1, 0, Draft)
            && 11 in again.runbooks && again.runbooks[11].tally == Tally(1, 1, Deprecated)
  {
    var a, b := c.(incidentId := 1, outcome := Failed), c.(incidentId := 2, outcome := Success);
    var cs, ids := [a, b], [10, 11];
    var key := KeyOf(c);
    LatestExists(NO_ROWS, key);
    assert RunWindow(2, NO_ROWS, cs, ids, 1) == NO_ROWS;
    var once := RunWindow(2, NO_ROWS, cs, ids, 2);
    assert once == Publish(NO_ROWS, None, b, 11);
    assert once.runbooks == map[11 := FirstDraft(b, 1)] && once.provenance == [ProvenanceRow(11, 2, Source)];
    LatestExists(once, key);
    assert once.runbooks[11].key == key;
    assert Latest(once, key) == Some(11);
    assert !Recorded(once, key, 1);
    var weak := RunWindow(2, once, cs, ids, 1);
    assert RunWindow(2, once, cs, ids, 0) == once;
    assert weak == Applied(2, once, a, 10);
    assert weak.runbooks[11].tally == Tally(1, 1, Deprecated);
    assert RecordedAt(weak, key, 2, 0) by { assert weak.provenance[0] == ProvenanceRow(11, 2, Source); }
    assert RunWindow(2, once, cs, ids, 2) == Applied(2, weak, b, 11) == weak;
  }
}
