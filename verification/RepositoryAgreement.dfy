/** The in-memory repository is a behavioural model of the SQL one: on a stream of distinct
    incidents both keep the same versions with the same steps and counters, and the same
    status for the version in use, but for the version a new one replaces, which the SQL store
    retires. On any other stream they part exactly where one of them knows a call as a repeat
    and the other does not. */
module RepositoryAgreement {
  import opened Contracts
  import opened RunbookStatus
  import opened RunbookRepository
  import opened SqlRunbooks
  import opened SqlReplay

  ghost predicate RowIs(row: RunbookRow, b: LocalRunbook, latest: bool) {
    && row.version == b.version && row.steps == b.steps
    && row.tally.successes == b.tally.successes && row.tally.failures == b.tally.failures
    && row.tally.status == if latest then b.tally.status else Deprecated
  }

  ghost predicate HasVersion(t: Tables, key: RunbookKey, version: nat) {
    exists id :: id in t.runbooks && t.runbooks[id].key == key && t.runbooks[id].version == version
  }

  /** Version i + 1 of the name is the i-th of the list, and it is stored. */
  ghost predicate StoredAt(versions: seq<LocalRunbook>, t: Tables, key: RunbookKey, i: nat)
    requires i < |versions|
  {
    versions[i].version == i + 1 && HasVersion(t, key, i + 1)
  }

  ghost predicate ListStored(versions: seq<LocalRunbook>, t: Tables, key: RunbookKey) {
    forall i :: 0 <= i < |versions| ==> StoredAt(versions, t, key, i)
  }

  ghost predicate RowAgrees(versions: seq<LocalRunbook>, row: RunbookRow) {
    && 1 <= row.version <= |versions|
    && RowIs(row, versions[row.version - 1], row.version == |versions|)
  }

  ghost predicate RowsListed(versions: seq<LocalRunbook>, t: Tables, key: RunbookKey) {
    forall id :: id in t.runbooks && t.runbooks[id].key == key ==> RowAgrees(versions, t.runbooks[id])
  }

  ghost predicate AgreesOn(versions: seq<LocalRunbook>, t: Tables, key: RunbookKey) {
    ListStored(versions, t, key) && RowsListed(versions, t, key)
  }

  ghost predicate Agrees(m: RepoState, t: Tables) {
    forall key :: AgreesOn(Versions(m, key), t, key)
  }

  lemma LatestIsLast(versions: seq<LocalRunbook>, t: Tables, key: RunbookKey)
    requires AgreesOn(versions, t, key)
    ensures Latest(t, key) == None <==> versions == []
    ensures Latest(t, key).Some? ==>
              && Latest(t, key).value in t.runbooks && t.runbooks[Latest(t, key).value].key == key
              && t.runbooks[Latest(t, key).value].version == |versions|
    ensures versions != [] ==> versions[|versions| - 1].version == |versions|
  {
    LatestExists(t, key);
    if versions != [] {
      assert StoredAt(versions, t, key, |versions| - 1);
    }
  }

  lemma ApplyEvolves(reinforcements: nat, m: RepoState, c: CandidateRunbook, k: IdempotencyKey, key: RunbookKey)
    requires k !in m.processed
    ensures Versions(ApplySpec(reinforcements, m, c, k).0, key)
         == if key == KeyOf(c) then Evolve(reinforcements, |m.runbooks[key := Versions(m, key)]|, Versions(m, key), c).0
            else Versions(m, key)
  {}

  lemma AppliedTouchesOne(reinforcements: nat, t: Tables, c: CandidateRunbook, newId: int)
    requires newId !in t.runbooks
    ensures var u := Applied(reinforcements, t, c, newId);
            && (forall id :: id in t.runbooks ==> id in u.runbooks && (t.runbooks[id].key != KeyOf(c) ==> u.runbooks[id] == t.runbooks[id]))
            && (forall id :: id in u.runbooks && u.runbooks[id].key != KeyOf(c) ==> id in t.runbooks && u.runbooks[id] == t.runbooks[id])
  {
    LatestExists(t, KeyOf(c));
  }

  lemma ApplyKeepsAgreement(reinforcements: nat, m: RepoState, t: Tables, c: CandidateRunbook, k: IdempotencyKey, newId: int, key: RunbookKey)
    requires Sound(t) && newId !in t.runbooks && |c.embedding| == EMBEDDING_DIMENSIONS
    requires AgreesOn(Versions(m, key), t, key)
    requires k !in m.processed && !Recorded(t, KeyOf(c), c.incidentId)
    ensures AgreesOn(Versions(ApplySpec(reinforcements, m, c, k).0, key), Applied(reinforcements, t, c, newId), key)
  {
    ApplyEvolves(reinforcements, m, c, k, key);
    if key != KeyOf(c) {
      AppliedTouchesOne(reinforcements, t, c, newId);
      OtherNamesKeep(t, Applied(reinforcements, t, c, newId), c, newId, Versions(m, key), key);
    } else {
      SameNameAgrees(reinforcements, Versions(m, key), t, c, newId, |m.runbooks[key := Versions(m, key)]|);
    }
  }

  lemma VersionStays(t: Tables, u: Tables, key: RunbookKey, version: nat)
    requires forall id :: id in t.runbooks && t.runbooks[id].key == key ==>
               id in u.runbooks && u.runbooks[id].key == key && u.runbooks[id].version == t.runbooks[id].version
    requires HasVersion(t, key, version)
    ensures HasVersion(u, key, version)
  {
    var id :| id in t.runbooks && t.runbooks[id].key == key && t.runbooks[id].version == version;
    assert u.runbooks[id].version == version;
  }

  lemma OtherNamesKeep(t: Tables, u: Tables, c: CandidateRunbook, newId: int, versions: seq<LocalRunbook>, key: RunbookKey)
    requires key != KeyOf(c)
    requires forall id :: id in t.runbooks ==> id in u.runbooks && (t.runbooks[id].key != KeyOf(c) ==> u.runbooks[id] == t.runbooks[id])
    requires forall id :: id in u.runbooks && u.runbooks[id].key != KeyOf(c) ==> id in t.runbooks && u.runbooks[id] == t.runbooks[id]
    requires AgreesOn(versions, t, key)
    ensures AgreesOn(versions, u, key)
  {
    forall i | 0 <= i < |versions| ensures StoredAt(versions, u, key, i) {
      assert StoredAt(versions, t, key, i);
      VersionStays(t, u, key, i + 1);
    }
  }

  lemma OneRowPerVersion(versions: seq<LocalRunbook>, t: Tables, key: RunbookKey, id: int)
    requires VersionsDiffer(t) && AgreesOn(versions, t, key)
    requires id in t.runbooks && t.runbooks[id].key == key && Latest(t, key).Some?
    ensures t.runbooks[id].version == |versions| <==> id == Latest(t, key).value
  {
    LatestIsLast(versions, t, key);
  }

  lemma CreditKeepsList(vs: seq<LocalRunbook>, t: Tables, key: RunbookKey, id: int, b: LocalRunbook, row: RunbookRow, p: ProvenanceRow)
    requires ListStored(vs, t, key) && vs != [] && b.version == |vs|
    requires id in t.runbooks && t.runbooks[id].key == key == row.key && t.runbooks[id].version == row.version
    ensures ListStored(vs[|vs| - 1 := b], Tables(t.runbooks[id := row], t.provenance + [p]), key)
  {
    var u := Tables(t.runbooks[id := row], t.provenance + [p]);
    var ws := vs[|vs| - 1 := b];
    forall i | 0 <= i < |ws| ensures StoredAt(ws, u, key, i) {
      assert StoredAt(vs, t, key, i);
      VersionStays(t, u, key, i + 1);
    }
  }

  /** Crediting the version in use, on both sides. */
  lemma CreditAgrees(vs: seq<LocalRunbook>, t: Tables, key: RunbookKey, b: LocalRunbook, row: RunbookRow, p: ProvenanceRow)
    requires VersionsDiffer(t) && AgreesOn(vs, t, key) && Latest(t, key).Some?
    requires vs != []
    requires b.version == |vs| && row.key == key && RowIs(row, b, true)
    ensures AgreesOn(vs[|vs| - 1 := b], Tables(t.runbooks[Latest(t, key).value := row], t.provenance + [p]), key)
  {
    var id := Latest(t, key).value;
    var u := Tables(t.runbooks[id := row], t.provenance + [p]);
    var ws := vs[|vs| - 1 := b];
    LatestIsLast(vs, t, key);
    CreditKeepsList(vs, t, key, id, b, row, p);
    forall x | x in u.runbooks && u.runbooks[x].key == key ensures RowAgrees(ws, u.runbooks[x]) {
      if x != id {
        OneRowPerVersion(vs, t, key, x);
        assert RowAgrees(vs, t.runbooks[x]);
      }
    }
  }

  lemma PublishKeepsList(vs: seq<LocalRunbook>, t: Tables, u: Tables, key: RunbookKey, b: LocalRunbook, newId: int)
    requires ListStored(vs, t, key) && b.version == |vs| + 1
    requires forall id :: id in t.runbooks && t.runbooks[id].key == key ==>
               id in u.runbooks && u.runbooks[id].key == key && u.runbooks[id].version == t.runbooks[id].version
    requires newId in u.runbooks && u.runbooks[newId].key == key && u.runbooks[newId].version == |vs| + 1
    ensures ListStored(vs + [b], u, key)
  {
    var ws := vs + [b];
    forall i | 0 <= i < |ws| ensures StoredAt(ws, u, key, i) {
      if i < |vs| {
        assert StoredAt(vs, t, key, i);
        VersionStays(t, u, key, i + 1);
      } else {
        assert HasVersion(u, key, i + 1);
      }
    }
  }

  /** A new version, on both sides. */
  lemma PublishAgrees(vs: seq<LocalRunbook>, t: Tables, c: CandidateRunbook, b: LocalRunbook, newId: int)
    requires VersionsDiffer(t) && AgreesOn(vs, t, KeyOf(c)) && newId !in t.runbooks
    requires b.version == |vs| + 1 && b.steps == c.steps && b.tally == CREATED
    requires Latest(t, KeyOf(c)).Some? ==> Latest(t, KeyOf(c)).value in t.runbooks
    ensures AgreesOn(vs + [b], Publish(t, Latest(t, KeyOf(c)), c, newId), KeyOf(c))
  {
    var key := KeyOf(c);
    var u := Publish(t, Latest(t, key), c, newId);
    var ws := vs + [b];
    LatestIsLast(vs, t, key);
    assert u.runbooks[newId].version == |vs| + 1;
    PublishKeepsList(vs, t, u, key, b, newId);
    forall x | x in u.runbooks && u.runbooks[x].key == key ensures RowAgrees(ws, u.runbooks[x]) {
      if x == newId {
        assert ws[|ws| - 1] == b;
      } else {
        PublishedRowAgrees(vs, t, c, b, newId, x);
      }
    }
  }

  lemma PublishedRowAgrees(vs: seq<LocalRunbook>, t: Tables, c: CandidateRunbook, b: LocalRunbook, newId: int, x: int)
    requires VersionsDiffer(t) && AgreesOn(vs, t, KeyOf(c)) && newId !in t.runbooks
    requires x in t.runbooks && t.runbooks[x].key == KeyOf(c)
    requires Latest(t, KeyOf(c)).Some? ==> Latest(t, KeyOf(c)).value in t.runbooks
    ensures var u := Publish(t, Latest(t, KeyOf(c)), c, newId);
            x in u.runbooks && RowAgrees(vs + [b], u.runbooks[x])
  {
    LatestIsLast(vs, t, KeyOf(c));
    OneRowPerVersion(vs, t, KeyOf(c), x);
    var row := t.runbooks[x];
    assert RowAgrees(vs, row);
    assert (vs + [b])[row.version - 1] == vs[row.version - 1];
  }

  lemma SameNameAgrees(reinforcements: nat, vs: seq<LocalRunbook>, t: Tables, c: CandidateRunbook, newId: int, keys: nat)
    requires VersionsDiffer(t) && newId !in t.runbooks && |c.embedding| == EMBEDDING_DIMENSIONS
    requires AgreesOn(vs, t, KeyOf(c)) && !Recorded(t, KeyOf(c), c.incidentId)
    ensures AgreesOn(Evolve(reinforcements, keys, vs, c).0, Applied(reinforcements, t, c, newId), KeyOf(c))
  {
    var key := KeyOf(c);
    var n := |vs|;
    LatestIsLast(vs, t, key);
    if n > 0 {
      var id := Latest(t, key).value;
      var row := t.runbooks[id];
      assert RowIs(row, vs[n - 1], true);
      assert vs[n - 1].version == n - 1 + 1;
      if c.outcome != Success {
        CreditAgrees(vs, t, key, vs[n - 1].(tally := Weaken(vs[n - 1].tally)), WeakenRow(row),
                     ProvenanceRow(id, c.incidentId, Counterexample));
      } else if vs[n - 1].steps == c.steps {
        CreditAgrees(vs, t, key, vs[n - 1].(tally := Reinforce(reinforcements, vs[n - 1].tally)), ReinforceRow(reinforcements, row),
                     ProvenanceRow(id, c.incidentId, Reinforcement));
      } else {
        PublishAgrees(vs, t, c, Evolve(reinforcements, keys, vs, c).0[n], newId);
      }
    } else if c.outcome == Success {
      PublishAgrees(vs, t, c, Evolve(reinforcements, keys, vs, c).0[0], newId);
    }
  }

  // ---- Whole streams ------------------------------------------------------

  function Candidates(ops: seq<Application>): seq<CandidateRunbook> {
    seq(|ops|, i requires 0 <= i < |ops| => ops[i].candidate)
  }

  lemma StepAgrees(reinforcements: nat, m: RepoState, t: Tables, a: Application, newId: int)
    requires Agrees(m, t) && Sound(t) && newId !in t.runbooks && |a.candidate.embedding| == EMBEDDING_DIMENSIONS
    requires a.key !in m.processed && !Recorded(t, KeyOf(a.candidate), a.candidate.incidentId)
    ensures Agrees(ApplySpec(reinforcements, m, a.candidate, a.key).0, Applied(reinforcements, t, a.candidate, newId))
  {
    var n, u := ApplySpec(reinforcements, m, a.candidate, a.key).0, Applied(reinforcements, t, a.candidate, newId);
    forall key ensures AgreesOn(Versions(n, key), u, key) {
      assert AgreesOn(Versions(m, key), t, key);
      ApplyKeepsAgreement(reinforcements, m, t, a.candidate, a.key, newId, key);
    }
  }

  lemma KeysAfter(reinforcements: nat, m: RepoState, a: Application)
    requires |a.candidate.embedding| == EMBEDDING_DIMENSIONS
    ensures ApplySpec(reinforcements, m, a.candidate, a.key).0.processed.Keys == m.processed.Keys + {a.key}
  {
    if a.key in m.processed { assert m.processed.Keys + {a.key} == m.processed.Keys; }
  }

  function KeysOf(ops: seq<Application>): set<IdempotencyKey> {
    set a | a in ops :: a.key
  }

  /** What holds of the two stores on any stream, in agreement or not. */
  ghost predicate Kept(m: RepoState, t: Tables, ops: seq<Application>) {
    Sound(t) && m.processed.Keys == KeysOf(ops)
  }

  ghost predicate InStep(m: RepoState, t: Tables, ops: seq<Application>) {
    Agrees(m, t) && Kept(m, t, ops)
  }

  // ---- Where one call parts the stores -------------------------------------------

  /** A table that agrees with two version lists makes them alike. */
  lemma TableDetermines(vs: seq<LocalRunbook>, ws: seq<LocalRunbook>, t: Tables, key: RunbookKey)
    requires AgreesOn(vs, t, key) && AgreesOn(ws, t, key)
    ensures |vs| == |ws|
    ensures vs != [] ==> vs[|vs| - 1].tally.successes == ws[|ws| - 1].tally.successes
                         && vs[|vs| - 1].tally.failures == ws[|ws| - 1].tally.failures
  {
    ListsNoMore(vs, ws, t, key);
    ListsNoMore(ws, vs, t, key);
    if vs != [] {
      assert StoredAt(vs, t, key, |vs| - 1);
      var id :| id in t.runbooks && t.runbooks[id].key == key && t.runbooks[id].version == |vs|;
      assert RowAgrees(vs, t.runbooks[id]) && RowAgrees(ws, t.runbooks[id]);
    }
  }

  lemma ListsNoMore(vs: seq<LocalRunbook>, ws: seq<LocalRunbook>, t: Tables, key: RunbookKey)
    requires AgreesOn(vs, t, key) && AgreesOn(ws, t, key)
    ensures |vs| <= |ws|
  {
    if vs != [] {
      assert StoredAt(vs, t, key, |vs| - 1);
      var id :| id in t.runbooks && t.runbooks[id].key == key && t.runbooks[id].version == |vs|;
      assert RowAgrees(ws, t.runbooks[id]);
    }
  }

  /** A call that is not ignored shows: a version more, or one more outcome counted. */
  lemma EvolutionShows(reinforcements: nat, keys: nat, vs: seq<LocalRunbook>, c: CandidateRunbook, t: Tables, key: RunbookKey)
    requires |c.embedding| == EMBEDDING_DIMENSIONS && (c.outcome == Success || vs != [])
    ensures !(AgreesOn(vs, t, key) && AgreesOn(Evolve(reinforcements, keys, vs, c).0, t, key))
  {
    EvolutionCounts(reinforcements, keys, vs, c);
    if AgreesOn(vs, t, key) && AgreesOn(Evolve(reinforcements, keys, vs, c).0, t, key) {
      TableDetermines(vs, Evolve(reinforcements, keys, vs, c).0, t, key);
    }
  }

  lemma EvolutionCounts(reinforcements: nat, keys: nat, vs: seq<LocalRunbook>, c: CandidateRunbook)
    requires |c.embedding| == EMBEDDING_DIMENSIONS && (c.outcome == Success || vs != [])
    ensures var ws := Evolve(reinforcements, keys, vs, c).0;
            || |ws| == |vs| + 1
            || (|ws| == |vs| > 0 && Outcomes(ws[|ws| - 1]) == Outcomes(vs[|vs| - 1]) + 1)
  {}

  function Outcomes(b: LocalRunbook): int { b.tally.successes + b.tally.failures }

  /** Both stores know the call as a repeat, or neither does, or it is ignored by both: a
      counterexample to a name without a runbook. */
  ghost predicate SameToBoth(m: RepoState, t: Tables, a: Application) {
    || (a.key in m.processed <==> Recorded(t, KeyOf(a.candidate), a.candidate.incidentId))
    || (a.candidate.outcome != Success && !HasName(t, KeyOf(a.candidate)))
  }

  lemma NameIsListed(m: RepoState, t: Tables, key: RunbookKey)
    requires Agrees(m, t)
    ensures AgreesOn(Versions(m, key), t, key)
    ensures HasName(t, key) <==> Versions(m, key) != []
  {
    assert AgreesOn(Versions(m, key), t, key);
    LatestIsLast(Versions(m, key), t, key);
    LatestExists(t, key);
  }

  lemma IgnoredKeepsAgreement(reinforcements: nat, m: RepoState, t: Tables, a: Application)
    requires Agrees(m, t) && a.candidate.outcome != Success && !HasName(t, KeyOf(a.candidate))
    ensures Agrees(ApplySpec(reinforcements, m, a.candidate, a.key).0, t)
  {
    var n := ApplySpec(reinforcements, m, a.candidate, a.key).0;
    NameIsListed(m, t, KeyOf(a.candidate));
    forall key ensures AgreesOn(Versions(n, key), t, key) {
      assert AgreesOn(Versions(m, key), t, key);
      if a.key !in m.processed { ApplyEvolves(reinforcements, m, a.candidate, a.key, key); }
    }
  }

  lemma SameToBothAgrees(reinforcements: nat, m: RepoState, t: Tables, a: Application, newId: int)
    requires Agrees(m, t) && Sound(t) && newId !in t.runbooks && |a.candidate.embedding| == EMBEDDING_DIMENSIONS
    requires SameToBoth(m, t, a)
    ensures Agrees(ApplySpec(reinforcements, m, a.candidate, a.key).0, Applied(reinforcements, t, a.candidate, newId))
  {
    ReplayIsIdleIff(reinforcements, t, a.candidate, newId);
    if a.candidate.outcome != Success && !HasName(t, KeyOf(a.candidate)) {
      IgnoredKeepsAgreement(reinforcements, m, t, a);
    } else if a.key !in m.processed {
      StepAgrees(reinforcements, m, t, a, newId);
    }
  }

  /** Only the SQL store takes the call for a new one. */
  lemma OnlySqlCounts(reinforcements: nat, m: RepoState, t: Tables, a: Application, newId: int)
    requires Agrees(m, t) && Sound(t) && newId !in t.runbooks && |a.candidate.embedding| == EMBEDDING_DIMENSIONS
    requires a.key in m.processed && !Recorded(t, KeyOf(a.candidate), a.candidate.incidentId)
    requires a.candidate.outcome == Success || HasName(t, KeyOf(a.candidate))
    ensures !Agrees(m, Applied(reinforcements, t, a.candidate, newId))
  {
    var key := KeyOf(a.candidate);
    NameIsListed(m, t, key);
    SameNameAgrees(reinforcements, Versions(m, key), t, a.candidate, newId, 0);
    EvolutionShows(reinforcements, 0, Versions(m, key), a.candidate, Applied(reinforcements, t, a.candidate, newId), key);
  }

  /** Only the in-memory store takes the call for a new one. */
  lemma OnlyMemoryCounts(reinforcements: nat, m: RepoState, t: Tables, a: Application)
    requires Agrees(m, t) && |a.candidate.embedding| == EMBEDDING_DIMENSIONS
    requires a.key !in m.processed && HasName(t, KeyOf(a.candidate))
    ensures !Agrees(ApplySpec(reinforcements, m, a.candidate, a.key).0, t)
  {
    var key := KeyOf(a.candidate);
    NameIsListed(m, t, key);
    ApplyEvolves(reinforcements, m, a.candidate, a.key, key);
    EvolutionShows(reinforcements, |m.runbooks[key := Versions(m, key)]|, Versions(m, key), a.candidate, t, key);
    assert Versions(ApplySpec(reinforcements, m, a.candidate, a.key).0, key)
        == Evolve(reinforcements, |m.runbooks[key := Versions(m, key)]|, Versions(m, key), a.candidate).0;
  }

  /** One call keeps the stores in agreement exactly when it is the same to both. */
  lemma StepAgreesIff(reinforcements: nat, m: RepoState, t: Tables, a: Application, newId: int)
    requires Agrees(m, t) && Sound(t) && newId !in t.runbooks && |a.candidate.embedding| == EMBEDDING_DIMENSIONS
    ensures Agrees(ApplySpec(reinforcements, m, a.candidate, a.key).0, Applied(reinforcements, t, a.candidate, newId))
            <==> SameToBoth(m, t, a)
  {
    if SameToBoth(m, t, a) {
      SameToBothAgrees(reinforcements, m, t, a, newId);
    } else if a.key in m.processed {
      OnlySqlCounts(reinforcements, m, t, a, newId);
    } else {
      ReplayIsIdleIff(reinforcements, t, a.candidate, newId);
      RecordedHasName(t, KeyOf(a.candidate), a.candidate.incidentId);
      OnlyMemoryCounts(reinforcements, m, t, a);
    }
  }

  // ---- Any stream -------------------------------------------------------------

  lemma RunOneMore(reinforcements: nat, ops: seq<Application>, n: nat)
    requires 0 < n <= |ops|
    ensures RunApplications(reinforcements, NOTHING_LEARNED, ops[..n])
         == ApplySpec(reinforcements, RunApplications(reinforcements, NOTHING_LEARNED, ops[..n - 1]), ops[n - 1].candidate, ops[n - 1].key).0
    ensures ops[..n] == ops[..n - 1] + [ops[n - 1]]
  {
    assert ops[..n][..n - 1] == ops[..n - 1];
  }

  lemma TablesOneMore(reinforcements: nat, ops: seq<Application>, ids: seq<int>, n: nat)
    requires Stream(NO_ROWS, Candidates(ops), ids) && 0 < n <= |ops|
    ensures var t := RunWindow(reinforcements, NO_ROWS, Candidates(ops), ids, n - 1);
            var c := ops[n - 1].candidate;
            && RunWindow(reinforcements, NO_ROWS, Candidates(ops), ids, n) == Applied(reinforcements, t, c, ids[n - 1])
            && ids[n - 1] !in t.runbooks && |c.embedding| == EMBEDDING_DIMENSIONS
  {
    FirstPass(reinforcements, NO_ROWS, Candidates(ops), ids, n - 1);
    assert ids[n - 1] !in Used(ids, n - 1);
    assert Candidates(ops)[n - 1] == ops[n - 1].candidate;
  }

  lemma OneMoreKept(reinforcements: nat, m: RepoState, t: Tables, ops: seq<Application>, a: Application, newId: int)
    requires Kept(m, t, ops) && newId !in t.runbooks && |a.candidate.embedding| == EMBEDDING_DIMENSIONS
    ensures Kept(ApplySpec(reinforcements, m, a.candidate, a.key).0, Applied(reinforcements, t, a.candidate, newId), ops + [a])
  {
    ApplyKeepsSound(reinforcements, t, a.candidate, newId);
    KeysAfter(reinforcements, m, a);
    assert KeysOf(ops + [a]) == KeysOf(ops) + {a.key};
  }

  lemma {:induction false} StreamIsKept(reinforcements: nat, ops: seq<Application>, ids: seq<int>, n: nat)
    requires Stream(NO_ROWS, Candidates(ops), ids) && n <= |ops|
    ensures Kept(RunApplications(reinforcements, NOTHING_LEARNED, ops[..n]),
                 RunWindow(reinforcements, NO_ROWS, Candidates(ops), ids, n), ops[..n])
  {
    if n > 0 {
      StreamIsKept(reinforcements, ops, ids, n - 1);
      RunOneMore(reinforcements, ops, n);
      TablesOneMore(reinforcements, ops, ids, n);
      OneMoreKept(reinforcements, RunApplications(reinforcements, NOTHING_LEARNED, ops[..n - 1]),
                  RunWindow(reinforcements, NO_ROWS, Candidates(ops), ids, n - 1), ops[..n - 1], ops[n - 1], ids[n - 1]);
    }
  }

  /** The two stores after the first n calls. */
  ghost predicate AgreeAt(reinforcements: nat, ops: seq<Application>, ids: seq<int>, n: nat)
    requires n <= |ops| == |ids|
  {
    Agrees(RunApplications(reinforcements, NOTHING_LEARNED, ops[..n]),
           RunWindow(reinforcements, NO_ROWS, Candidates(ops), ids, n))
  }

  /** Read off the stream alone: call n repeats an earlier key exactly when its incident was
      listed under its name before, or it is a counterexample before any success of its name. */
  ghost predicate InTune(ops: seq<Application>, n: nat)
    requires n < |ops|
  {
    var c := ops[n].candidate;
    || (ops[n].key in KeysOf(ops[..n]) <==> ListedBefore(NO_ROWS, Candidates(ops), KeyOf(c), c.incidentId, n))
    || (c.outcome != Success && !SucceededBefore(Candidates(ops), KeyOf(c), n))
  }

  lemma InTuneIsSameToBoth(reinforcements: nat, ops: seq<Application>, ids: seq<int>, n: nat)
    requires Stream(NO_ROWS, Candidates(ops), ids) && n < |ops|
    ensures InTune(ops, n) <==> SameToBoth(RunApplications(reinforcements, NOTHING_LEARNED, ops[..n]),
                                           RunWindow(reinforcements, NO_ROWS, Candidates(ops), ids, n), ops[n])
  {
    var c := ops[n].candidate;
    StreamIsKept(reinforcements, ops, ids, n);
    FirstPass(reinforcements, NO_ROWS, Candidates(ops), ids, n);
    var t := RunWindow(reinforcements, NO_ROWS, Candidates(ops), ids, n);
    assert !HasName(NO_ROWS, KeyOf(c)) && !Recorded(NO_ROWS, KeyOf(c), c.incidentId);
    assert HasName(t, KeyOf(c)) <==> SucceededBefore(Candidates(ops), KeyOf(c), n);
    assert Recorded(t, KeyOf(c), c.incidentId) <==> ListedBefore(NO_ROWS, Candidates(ops), KeyOf(c), c.incidentId, n);
  }

  /** Stores in agreement stay in agreement over call n exactly when it is in tune. */
  lemma NextAgreesIff(reinforcements: nat, ops: seq<Application>, ids: seq<int>, n: nat)
    requires Stream(NO_ROWS, Candidates(ops), ids) && n < |ops| && AgreeAt(reinforcements, ops, ids, n)
    ensures AgreeAt(reinforcements, ops, ids, n + 1) <==> InTune(ops, n)
  {
    StreamIsKept(reinforcements, ops, ids, n);
    RunOneMore(reinforcements, ops, n + 1);
    TablesOneMore(reinforcements, ops, ids, n + 1);
    InTuneIsSameToBoth(reinforcements, ops, ids, n);
    StepAgreesIff(reinforcements, RunApplications(reinforcements, NOTHING_LEARNED, ops[..n]),
                  RunWindow(reinforcements, NO_ROWS, Candidates(ops), ids, n), ops[n], ids[n]);
  }

  lemma NothingAgrees(reinforcements: nat, ops: seq<Application>, ids: seq<int>)
    requires |ops| == |ids|
    ensures AgreeAt(reinforcements, ops, ids, 0)
  {
    assert ops[..0] == [];
  }

  lemma {:induction false} TunedStreamAgrees(reinforcements: nat, ops: seq<Application>, ids: seq<int>, n: nat)
    requires Stream(NO_ROWS, Candidates(ops), ids) && n <= |ops|
    requires forall k :: 0 <= k < n ==> InTune(ops, k)
    ensures AgreeAt(reinforcements, ops, ids, n)
  {
    if n == 0 {
      NothingAgrees(reinforcements, ops, ids);
    } else {
      TunedStreamAgrees(reinforcements, ops, ids, n - 1);
      NextAgreesIff(reinforcements, ops, ids, n - 1);
    }
  }

  /** Over any stream, with repeated calls and repeated incidents, the two repositories agree
      after every call if and only if every call is in tune. */
  lemma StreamsAgreeIff(reinforcements: nat, ops: seq<Application>, ids: seq<int>)
    requires Stream(NO_ROWS, Candidates(ops), ids)
    ensures (forall n :: 0 <= n <= |ops| ==> AgreeAt(reinforcements, ops, ids, n)) <==> (forall k :: 0 <= k < |ops| ==> InTune(ops, k))
  {
    if forall k :: 0 <= k < |ops| ==> InTune(ops, k) {
      forall n | 0 <= n <= |ops| ensures AgreeAt(reinforcements, ops, ids, n) { TunedStreamAgrees(reinforcements, ops, ids, n); }
    } else if forall n :: 0 <= n <= |ops| ==> AgreeAt(reinforcements, ops, ids, n) {
      forall k | 0 <= k < |ops| ensures InTune(ops, k) {
        assert AgreeAt(reinforcements, ops, ids, k) && AgreeAt(reinforcements, ops, ids, k + 1);
        NextAgreesIff(reinforcements, ops, ids, k);
      }
    }
  }

  // ---- Two kinds of stream ------------------------------------------------------

  predicate DistinctKeys(ops: seq<Application>) {
    forall i, j :: 0 <= i < j < |ops| ==> ops[i].key != ops[j].key
  }

  lemma DistinctIsTuned(ops: seq<Application>, n: nat)
    requires OncePerIncident(Candidates(ops)) && DistinctKeys(ops) && n < |ops|
    ensures InTune(ops, n)
  {
    var cs := Candidates(ops);
    forall j | 0 <= j < n ensures ops[j].key != ops[n].key {}
    assert ops[n].key !in KeysOf(ops[..n]);
    forall j | 0 <= j < n ensures !(KeyOf(cs[j]) == KeyOf(cs[n]) && cs[j].incidentId == cs[n].incidentId) {
      assert !(cs[j].orgId == cs[n].orgId && cs[j].incidentId == cs[n].incidentId);
    }
    assert !ListedBefore(NO_ROWS, cs, KeyOf(cs[n]), cs[n].incidentId, n);
  }

  /** Both repositories, fed one stream of distinct incidents, stay in agreement. */
  lemma StreamsAgree(reinforcements: nat, ops: seq<Application>, ids: seq<int>, n: nat)
    requires Window(NO_ROWS, Candidates(ops), ids) && n <= |ops|
    requires DistinctKeys(ops)
    ensures InStep(RunApplications(reinforcements, NOTHING_LEARNED, ops[..n]),
                   RunWindow(reinforcements, NO_ROWS, Candidates(ops), ids, n), ops[..n])
  {
    StreamIsKept(reinforcements, ops, ids, n);
    forall k | 0 <= k < n ensures InTune(ops, k) { DistinctIsTuned(ops, k); }
    TunedStreamAgrees(reinforcements, ops, ids, n);
  }

  /** An incident that is completed again under a new key parts them: the in-memory store
      counts it twice, the SQL store once. */
  lemma SecondCompletionParts(reinforcements: nat, ops: seq<Application>, ids: seq<int>, n: nat, i: nat)
    requires Stream(NO_ROWS, Candidates(ops), ids) && i < n < |ops| && AgreeAt(reinforcements, ops, ids, n)
    requires KeyOf(ops[i].candidate) == KeyOf(ops[n].candidate) && ops[i].candidate.incidentId == ops[n].candidate.incidentId
    requires ops[i].candidate.outcome == Success && ops[n].key !in KeysOf(ops[..n])
    ensures !AgreeAt(reinforcements, ops, ids, n + 1)
  {
    var cs := Candidates(ops);
    assert ListedAt(NO_ROWS, cs, KeyOf(cs[n]), cs[n].incidentId, i);
    assert ListedBefore(NO_ROWS, cs, KeyOf(cs[n]), cs[n].incidentId, n);
    assert SucceededBefore(cs, KeyOf(cs[n]), n);
    NextAgreesIff(reinforcements, ops, ids, n);
  }
}
