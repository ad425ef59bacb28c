/** The in-memory runbook repository
    (consolidation/postmortem_consolidation/repository.py:51-127). */
module RunbookRepository {
  import opened Contracts
  import opened RunbookStatus

  datatype RunbookKey = RunbookKey(orgId: int, agentId: int, name: string)

  /** The two counters of the generated "rb-<keys>-<version>" text. */
  datatype RunbookId = NoRunbook | RunbookId(keys: nat, version: nat)

  datatype LocalRunbook = LocalRunbook(
    runbookId: RunbookId, version: nat, steps: seq<string>, tally: Tally, embedding: Embedding)

  datatype Operation = Create | Reinforced | Weakened | IgnoredCounterexample | Noop

  /** A status of None is the text "absent". */
  datatype RunbookMutation = RunbookMutation(
    operation: Operation, runbookId: RunbookId, version: nat,
    successCount: nat, failureCount: nat, status: Option<Status>, idempotentReplay: bool)

  datatype RepoState = RepoState(
    runbooks: map<RunbookKey, seq<LocalRunbook>>,
    processed: map<IdempotencyKey, RunbookMutation>)

  const NOTHING_LEARNED := RepoState(map[], map[])

  function KeyOf(c: CandidateRunbook): RunbookKey { RunbookKey(c.orgId, c.agentId, c.name) }

  function Versions(s: RepoState, key: RunbookKey): seq<LocalRunbook> {
    if key in s.runbooks then s.runbooks[key] else []
  }

  function Report(op: Operation, b: LocalRunbook): RunbookMutation {
    RunbookMutation(op, b.runbookId, b.version, b.tally.successes, b.tally.failures, Some(b.tally.status), false)
  }

  const IGNORED := RunbookMutation(IgnoredCounterexample, NoRunbook, 0, 0, 0, None, false)

  /** The new version list and the reported mutation; None when the candidate that would
      have to be created carries no usable embedding. */
  function Evolve(reinforcements: nat, keys: nat, versions: seq<LocalRunbook>, c: CandidateRunbook)
    : (seq<LocalRunbook>, Option<RunbookMutation>)
  {
    var n := |versions|;
    if c.outcome != Success then
      if n == 0 then (versions, Some(IGNORED))
      else
        var b := versions[n - 1].(tally := Weaken(versions[n - 1].tally));
        (versions[n - 1 := b], Some(Report(Weakened, b)))
    else if n == 0 || versions[n - 1].steps != c.steps then
      if |c.embedding| != EMBEDDING_DIMENSIONS then (versions, None)
      else
        var b := LocalRunbook(RunbookId(keys, n + 1), if n == 0 then 1 else versions[n - 1].version + 1,
                              c.steps, CREATED, c.embedding);
        (versions + [b], Some(Report(Create, b)))
    else
      var b := versions[n - 1].(tally := Reinforce(reinforcements, versions[n - 1].tally));
      (versions[n - 1 := b], Some(Report(Reinforced, b)))
  }

  /** An already processed key answers with the recorded mutation and changes nothing. */
  function ApplySpec(reinforcements: nat, s: RepoState, c: CandidateRunbook, k: IdempotencyKey)
    : (RepoState, Option<RunbookMutation>)
  {
    if k in s.processed then (s, Some(s.processed[k].(operation := Noop, idempotentReplay := true)))
    else
      var key := KeyOf(c);
      var listed := s.runbooks[key := Versions(s, key)];
      var (versions, mutation) := Evolve(reinforcements, |listed|, Versions(s, key), c);
      (RepoState(listed[key := versions],
                 if mutation == None then s.processed else s.processed[k := mutation.value]),
       mutation)
  }

  class InMemoryRunbookRepository {
    const reinforcementsToActivate: nat
    var runbooks: map<RunbookKey, seq<LocalRunbook>>
    var processed: map<IdempotencyKey, RunbookMutation>

    ghost function State(): RepoState
      reads this
    {
      RepoState(runbooks, processed)
    }

    constructor (reinforcements: nat)
      requires reinforcements >= 1
      ensures reinforcementsToActivate == reinforcements
      ensures State() == NOTHING_LEARNED
    {
      reinforcementsToActivate := reinforcements;
      runbooks, processed := map[], map[];
    }

    /** A result of None is the refused embedding: the call raises, having listed the key. */
    method Apply(candidate: CandidateRunbook, k: IdempotencyKey) returns (result: Option<RunbookMutation>)
      modifies this
      ensures (State(), result) == ApplySpec(reinforcementsToActivate, old(State()), candidate, k)
    {
      if k in processed {
        result := Some(processed[k].(operation := Noop, idempotentReplay := true));
        return;
      }
      var key := KeyOf(candidate);
      if key !in runbooks {
        runbooks := runbooks[key := []];
      }
      var versions := runbooks[key];
      assert runbooks == old(runbooks)[key := Versions(old(State()), key)];
      assert runbooks[key := versions] == runbooks;
      var n := |versions|;
      var mutation: RunbookMutation;
      if candidate.outcome != Success {
        if n == 0 {
          mutation := IGNORED;
        } else {
          var latest := versions[n - 1];
          latest := latest.(tally := latest.tally.(failures := latest.tally.failures + 1));
          if latest.tally.failures >= latest.tally.successes {
            latest := latest.(tally := latest.tally.(status := Deprecated));
          }
          runbooks := runbooks[key := versions[n - 1 := latest]];
          mutation := Report(Weakened, latest);
        }
      } else if n == 0 || versions[n - 1].steps != candidate.steps {
        if |candidate.embedding| != EMBEDDING_DIMENSIONS {
          result := None;
          return;
        }
        var runbook := LocalRunbook(RunbookId(|runbooks|, n + 1),
                                    if n > 0 then versions[n - 1].version + 1 else 1,
                                    candidate.steps, Tally(1, 0, Draft), candidate.embedding);
        runbooks := runbooks[key := versions + [runbook]];
        mutation := Report(Create, runbook);
      } else {
        var latest := versions[n - 1];
        latest := latest.(tally := latest.tally.(successes := latest.tally.successes + 1));
        if latest.tally.status == Draft && latest.tally.successes >= reinforcementsToActivate + 1 {
          latest := latest.(tally := latest.tally.(status := Active));
        }
        runbooks := runbooks[key := versions[n - 1 := latest]];
        mutation := Report(Reinforced, latest);
      }
      processed := processed[k := mutation];
      result := Some(mutation);
    }
  }

  datatype Application = Application(candidate: CandidateRunbook, key: IdempotencyKey)

  function RunApplications(reinforcements: nat, s: RepoState, ops: seq<Application>): RepoState {
    if ops == [] then s
    else
      var before := RunApplications(reinforcements, s, ops[..|ops| - 1]);
      ApplySpec(reinforcements, before, ops[|ops| - 1].candidate, ops[|ops| - 1].key).0
  }

  // ---- What a call answers --------------------------------------------------

  /** The answer carries the numbers of this version, as it now is. */
  predicate Carries(m: RunbookMutation, b: LocalRunbook) {
    && m.runbookId == b.runbookId && m.version == b.version && !m.idempotentReplay
    && m.successCount == b.tally.successes && m.failureCount == b.tally.failures && m.status == Some(b.tally.status)
  }

  /** The version took one more outcome and is otherwise the same. */
  predicate CountedOneMore(before: LocalRunbook, after: LocalRunbook, success: bool) {
    && after == before.(tally := after.tally)
    && after.tally.successes == before.tally.successes + (if success then 1 else 0)
    && after.tally.failures == before.tally.failures + (if success then 0 else 1)
  }

  /** The first call of a key: what happens to the versions of the candidate's name, and which
      operation the answer names for it. Only a success can add a version, and only one that
      differs from the last in its steps. */
  predicate AnswersFirst(vs: seq<LocalRunbook>, ws: seq<LocalRunbook>, c: CandidateRunbook, m: Option<RunbookMutation>) {
    var n := |vs|;
    var newSteps := n == 0 || vs[n - 1].steps != c.steps;
    if c.outcome == Success && newSteps && |c.embedding| != 1024 then m == None && ws == vs
    else if c.outcome == Success && newSteps then
      && m.Some? && m.value.operation == Create && |ws| == n + 1 && ws[..n] == vs
      && ws[n].steps == c.steps && ws[n].embedding == c.embedding && ws[n].tally == Tally(1, 0, Draft)
      && ws[n].version == (if n == 0 then 1 else vs[n - 1].version + 1) && Carries(m.value, ws[n])
    else if n > 0 then
      && m.Some? && m.value.operation == (if c.outcome == Success then Reinforced else Weakened)
      && |ws| == n && ws[..n - 1] == vs[..n - 1]
      && CountedOneMore(vs[n - 1], ws[n - 1], c.outcome == Success) && Carries(m.value, ws[n - 1])
    else
      m == Some(RunbookMutation(IgnoredCounterexample, NoRunbook, 0, 0, 0, None, false)) && ws == vs
  }

  lemma FirstCallAnswers(reinforcements: nat, s: RepoState, c: CandidateRunbook, k: IdempotencyKey)
    requires k !in s.processed
    ensures var (u, m) := ApplySpec(reinforcements, s, c, k);
            var key := RunbookKey(c.orgId, c.agentId, c.name);
            && AnswersFirst(Versions(s, key), Versions(u, key), c, m)
            && (forall other :: other != key ==> Versions(u, other) == Versions(s, other))
            && u.processed == (if m == None then s.processed else s.processed[k := m.value])
  {}

  lemma MintedId(reinforcements: nat, keys: nat, vs: seq<LocalRunbook>, c: CandidateRunbook)
    ensures var (ws, m) := Evolve(reinforcements, keys, vs, c);
            m.Some? && m.value.operation == Create ==> m.value.runbookId == RunbookId(keys, |ws|)
  {}

  lemma SameNames(runbooks: map<RunbookKey, seq<LocalRunbook>>, key: RunbookKey, vs: seq<LocalRunbook>, ws: seq<LocalRunbook>)
    ensures runbooks[key := vs][key := ws].Keys == runbooks.Keys + {key}
    ensures |runbooks[key := vs][key := ws]| == |runbooks[key := vs]|
  {
    var listed, after := runbooks[key := vs], runbooks[key := vs][key := ws];
    assert |listed| == |listed.Keys| && |after| == |after.Keys| && listed.Keys == after.Keys;
  }

  /** Every first call lists its name, even a refused one, and a new version's id is made of how
      many names and how many versions of its own there then are. */
  lemma FirstCallLists(reinforcements: nat, s: RepoState, c: CandidateRunbook, k: IdempotencyKey)
    requires k !in s.processed
    ensures var (u, m) := ApplySpec(reinforcements, s, c, k);
            var key := RunbookKey(c.orgId, c.agentId, c.name);
            && u.runbooks.Keys == s.runbooks.Keys + {key}
            && (m.Some? && m.value.operation == Create ==> m.value.runbookId == RunbookId(|u.runbooks|, |Versions(u, key)|))
  {
    var vs := Versions(s, KeyOf(c));
    var keys := |s.runbooks[KeyOf(c) := vs]|;
    MintedId(reinforcements, keys, vs, c);
    SameNames(s.runbooks, KeyOf(c), vs, Evolve(reinforcements, keys, vs, c).0);
  }

  lemma {:induction false} FirstAnswerStands(reinforcements: nat, s: RepoState, ops: seq<Application>, k: IdempotencyKey)
    requires k in s.processed
    ensures var t := RunApplications(reinforcements, s, ops); k in t.processed && t.processed[k] == s.processed[k]
  {
    if ops != [] { FirstAnswerStands(reinforcements, s, ops[..|ops| - 1], k); }
  }

  /** However many calls come between, a repeated key changes nothing and answers "noop", a
      replay, with the numbers of its first answer, whatever candidate it comes with. */
  lemma RepeatedKeyAnswersFirst(reinforcements: nat, s: RepoState, c: CandidateRunbook, k: IdempotencyKey, ops: seq<Application>, again: CandidateRunbook)
    requires k !in s.processed && ApplySpec(reinforcements, s, c, k).1.Some?
    ensures var (u, first) := ApplySpec(reinforcements, s, c, k);
            var t := RunApplications(reinforcements, u, ops);
            ApplySpec(reinforcements, t, again, k) ==
              (t, Some(RunbookMutation(Noop, first.value.runbookId, first.value.version, first.value.successCount,
                                       first.value.failureCount, first.value.status, true)))
  {
    FirstCallAnswers(reinforcements, s, c, k);
    FirstAnswerStands(reinforcements, ApplySpec(reinforcements, s, c, k).0, ops, k);
  }

  // ---- The repository is a function of its log ----------------------------

  datatype Segment = Segment(steps: seq<string>, history: seq<bool>)

  /** A reading of the log with no counters: counterexamples before the first success are
      dropped, a success with new steps opens a segment, everything else joins the last. */
  function Segments(log: seq<CandidateRunbook>): seq<Segment> {
    if log == [] then []
    else
      var before := Segments(log[..|log| - 1]);
      var c := log[|log| - 1];
      var n := |before|;
      if c.outcome == Success && (n == 0 || before[n - 1].steps != c.steps) then before + [Segment(c.steps, [true])]
      else if n == 0 then before
      else before[n - 1 := before[n - 1].(history := before[n - 1].history + [c.outcome == Success])]
  }

  /** The candidate would have to be created and carries no usable embedding: the call raises. */
  predicate Refused(segments: seq<Segment>, c: CandidateRunbook) {
    && c.outcome == Success && |c.embedding| != EMBEDDING_DIMENSIONS
    && (segments == [] || segments[|segments| - 1].steps != c.steps)
  }

  /** The idempotency keys on record: those of all calls but the refused ones. */
  function KeysUsed(ops: seq<Application>): set<IdempotencyKey> {
    if ops == [] then {}
    else
      var front := ops[..|ops| - 1];
      var last := ops[|ops| - 1];
      KeysUsed(front) + if Refused(Segments(Log(front, KeyOf(last.candidate))), last.candidate) then {} else {last.key}
  }

  /** The candidates of one runbook name that were the first of their idempotency key and not
      refused. */
  function Log(ops: seq<Application>, key: RunbookKey): seq<CandidateRunbook> {
    if ops == [] then []
    else
      var front := ops[..|ops| - 1];
      var last := ops[|ops| - 1];
      if last.key !in KeysUsed(front) && KeyOf(last.candidate) == key && !Refused(Segments(Log(front, key)), last.candidate)
      then Log(front, key) + [last.candidate] else Log(front, key)
  }

  ghost predicate Matches(reinforcements: nat, versions: seq<LocalRunbook>, segments: seq<Segment>) {
    && |versions| == |segments|
    && forall i :: 0 <= i < |versions| ==> MatchesAt(reinforcements, versions[i], segments[i], i)
  }

  ghost predicate MatchesAt(reinforcements: nat, b: LocalRunbook, g: Segment, i: nat) {
    && b.version == i + 1
    && b.steps == g.steps
    && g.history != [] && g.history[0]
    && b.tally == Tally(Count(g.history, true), Count(g.history, false), StatusOf(reinforcements, g.history))
    && |b.embedding| == EMBEDDING_DIMENSIONS
  }

  function Credited(reinforcements: nat, t: Tally, success: bool): Tally {
    if success then Reinforce(reinforcements, t) else Weaken(t)
  }

  lemma CreditMatches(reinforcements: nat, b: LocalRunbook, g: Segment, i: nat, success: bool)
    requires reinforcements >= 1
    requires MatchesAt(reinforcements, b, g, i)
    ensures MatchesAt(reinforcements, b.(tally := Credited(reinforcements, b.tally, success)), g.(history := g.history + [success]), i)
  {
    var h := g.history;
    var h' := h + [success];
    assert h'[..|h|] == h;
    IncrementalIsClosedForm(reinforcements, h);
    IncrementalIsClosedForm(reinforcements, h');
  }

  lemma CreationMatches(reinforcements: nat, id: RunbookId, n: nat, c: CandidateRunbook)
    requires reinforcements >= 1 && |c.embedding| == EMBEDDING_DIMENSIONS
    ensures MatchesAt(reinforcements, LocalRunbook(id, n + 1, c.steps, CREATED, c.embedding), Segment(c.steps, [true]), n)
  {
    IncrementalIsClosedForm(reinforcements, [true]);
  }

  lemma CreditJoinsLast(reinforcements: nat, versions: seq<LocalRunbook>, log: seq<CandidateRunbook>, c: CandidateRunbook, b: LocalRunbook)
    requires reinforcements >= 1 && Matches(reinforcements, versions, Segments(log)) && versions != []
    requires c.outcome != Success || versions[|versions| - 1].steps == c.steps
    requires b == versions[|versions| - 1].(tally := Credited(reinforcements, versions[|versions| - 1].tally, c.outcome == Success))
    ensures Matches(reinforcements, versions[|versions| - 1 := b], Segments(log + [c]))
  {
    assert (log + [c])[..|log|] == log;
    var n := |versions|;
    assert MatchesAt(reinforcements, versions[n - 1], Segments(log)[n - 1], n - 1);
    CreditMatches(reinforcements, versions[n - 1], Segments(log)[n - 1], n - 1, c.outcome == Success);
  }

  lemma CreationOpensSegment(reinforcements: nat, versions: seq<LocalRunbook>, log: seq<CandidateRunbook>, c: CandidateRunbook, id: RunbookId)
    requires reinforcements >= 1 && Matches(reinforcements, versions, Segments(log))
    requires c.outcome == Success && |c.embedding| == EMBEDDING_DIMENSIONS
    requires versions == [] || versions[|versions| - 1].steps != c.steps
    ensures Matches(reinforcements, versions + [LocalRunbook(id, |versions| + 1, c.steps, CREATED, c.embedding)], Segments(log + [c]))
  {
    assert (log + [c])[..|log|] == log;
    var n := |versions|;
    assert n > 0 ==> MatchesAt(reinforcements, versions[n - 1], Segments(log)[n - 1], n - 1);
    CreationMatches(reinforcements, id, n, c);
  }

  /** One call, seen by the version list of its name: refused, or one more log entry. */
  lemma EvolveMatches(reinforcements: nat, keys: nat, versions: seq<LocalRunbook>, log: seq<CandidateRunbook>, c: CandidateRunbook)
    requires reinforcements >= 1
    requires Matches(reinforcements, versions, Segments(log))
    ensures var (after, mutation) := Evolve(reinforcements, keys, versions, c);
            && (mutation == None <==> Refused(Segments(log), c))
            && (if Refused(Segments(log), c) then after == versions else Matches(reinforcements, after, Segments(log + [c])))
  {
    var after := Evolve(reinforcements, keys, versions, c).0;
    var n := |versions|;
    assert n > 0 ==> MatchesAt(reinforcements, versions[n - 1], Segments(log)[n - 1], n - 1);
    if n == 0 && c.outcome != Success {
      assert (log + [c])[..|log|] == log;
    } else if c.outcome != Success || (n > 0 && versions[n - 1].steps == c.steps) {
      CreditJoinsLast(reinforcements, versions, log, c, after[n - 1]);
    } else if |c.embedding| == EMBEDDING_DIMENSIONS {
      CreationOpensSegment(reinforcements, versions, log, c, RunbookId(keys, n + 1));
    }
  }

  /** The state holds what the calls so far have logged. */
  ghost predicate Mirrors(reinforcements: nat, s: RepoState, ops: seq<Application>) {
    && s.processed.Keys == KeysUsed(ops)
    && forall key :: Matches(reinforcements, Versions(s, key), Segments(Log(ops, key)))
  }

  lemma LogOneMore(ops: seq<Application>, a: Application, key: RunbookKey)
    ensures Log(ops + [a], key)
         == if a.key !in KeysUsed(ops) && KeyOf(a.candidate) == key && !Refused(Segments(Log(ops, key)), a.candidate)
            then Log(ops, key) + [a.candidate] else Log(ops, key)
    ensures KeysUsed(ops + [a])
         == KeysUsed(ops) + if Refused(Segments(Log(ops, KeyOf(a.candidate))), a.candidate) then {} else {a.key}
  {
    assert (ops + [a])[..|ops|] == ops;
  }

  lemma ApplyToName(reinforcements: nat, s: RepoState, a: Application, key: RunbookKey)
    requires a.key !in s.processed
    ensures var t := ApplySpec(reinforcements, s, a.candidate, a.key).0;
            var mine := KeyOf(a.candidate);
            var evolved := Evolve(reinforcements, |s.runbooks[mine := Versions(s, mine)]|, Versions(s, mine), a.candidate);
            && Versions(t, key) == (if key == mine then evolved.0 else Versions(s, key))
            && t.processed.Keys == s.processed.Keys + if evolved.1 == None then {} else {a.key}
  {}

  /** The version list of one name after a call that is not a replay. */
  lemma OneMoreMatches(reinforcements: nat, s: RepoState, ops: seq<Application>, a: Application, key: RunbookKey)
    requires reinforcements >= 1 && a.key !in KeysUsed(ops) && a.key !in s.processed
    requires Matches(reinforcements, Versions(s, key), Segments(Log(ops, key)))
    ensures Matches(reinforcements, Versions(ApplySpec(reinforcements, s, a.candidate, a.key).0, key), Segments(Log(ops + [a], key)))
  {
    LogOneMore(ops, a, key);
    ApplyToName(reinforcements, s, a, key);
    if key == KeyOf(a.candidate) {
      EvolveMatches(reinforcements, |s.runbooks[key := Versions(s, key)]|, Versions(s, key), Log(ops, key), a.candidate);
    }
  }

  lemma OneMoreKey(reinforcements: nat, s: RepoState, ops: seq<Application>, a: Application)
    requires reinforcements >= 1 && a.key !in s.processed && s.processed.Keys == KeysUsed(ops)
    requires Matches(reinforcements, Versions(s, KeyOf(a.candidate)), Segments(Log(ops, KeyOf(a.candidate))))
    ensures ApplySpec(reinforcements, s, a.candidate, a.key).0.processed.Keys == KeysUsed(ops + [a])
  {
    var mine := KeyOf(a.candidate);
    LogOneMore(ops, a, mine);
    ApplyToName(reinforcements, s, a, mine);
    EvolveMatches(reinforcements, |s.runbooks[mine := Versions(s, mine)]|, Versions(s, mine), Log(ops, mine), a.candidate);
  }

  lemma ReplayMirrors(reinforcements: nat, s: RepoState, ops: seq<Application>, a: Application)
    requires Mirrors(reinforcements, s, ops) && a.key in s.processed
    ensures Mirrors(reinforcements, s, ops + [a])
  {
    LogOneMore(ops, a, KeyOf(a.candidate));
    forall key ensures Log(ops + [a], key) == Log(ops, key) { LogOneMore(ops, a, key); }
  }

  lemma OneMoreMirrors(reinforcements: nat, s: RepoState, ops: seq<Application>, a: Application)
    requires reinforcements >= 1 && Mirrors(reinforcements, s, ops)
    ensures Mirrors(reinforcements, ApplySpec(reinforcements, s, a.candidate, a.key).0, ops + [a])
  {
    if a.key in s.processed {
      ReplayMirrors(reinforcements, s, ops, a);
    } else {
      OneMoreKey(reinforcements, s, ops, a);
      var t := ApplySpec(reinforcements, s, a.candidate, a.key).0;
      forall key ensures Matches(reinforcements, Versions(t, key), Segments(Log(ops + [a], key))) {
        assert Matches(reinforcements, Versions(s, key), Segments(Log(ops, key)));
        OneMoreMatches(reinforcements, s, ops, a, key);
      }
    }
  }

  /** Whatever calls arrive, in whatever order and however often repeated, the stored
      versions of a name are the segments of its log, each with the counters and the
      status that the closed form gives. */
  lemma {:induction false} RepositoryIsItsLog(reinforcements: nat, ops: seq<Application>)
    requires reinforcements >= 1
    ensures Mirrors(reinforcements, RunApplications(reinforcements, NOTHING_LEARNED, ops), ops)
  {
    if ops != [] {
      var front := ops[..|ops| - 1];
      RepositoryIsItsLog(reinforcements, front);
      OneMoreMirrors(reinforcements, RunApplications(reinforcements, NOTHING_LEARNED, front), front, ops[|ops| - 1]);
      assert ops == front + [ops[|ops| - 1]];
    }
  }
}
