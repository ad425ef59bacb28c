/** Remediation calls among other clients (backend/src/postmortem_backend/adapters/cockroach.py:226-265):
    between the attempts of a call, and before its replay lookup, any transactions of others
    may commit. */
module RemediationCalls {
  import opened Contracts
  import opened OperationalStore
  import opened OperationalHistory

  /** What others commit before an attempt, the ids generated for it, and what befalls it. */
  datatype Attempt = Attempt(others: seq<Op>, ids: NewIds, fault: Fault)

  /** Where a call ends: the tables, its answer, every transaction that ran meanwhile, and
      those of others among them. */
  datatype Woven = Woven(tables: Tables, verdict: Remediation, history: seq<Op>, foreign: seq<Op>)

  /** The call after validation: retry on 40001, replay on 23505. */
  ghost function Weave(t: Tables, c: RemediationCommand, attempts: seq<Attempt>, beforeLookup: seq<Op>, lookupFails: bool): Woven
    requires attempts != []
    decreases |attempts|
  {
    var a := attempts[0];
    var before := Run(t, a.others);
    var (after, verdict) := ExecuteSpec(before, c, a.ids, a.fault);
    var soFar := a.others + [Act(c, a.ids, a.fault)];
    if verdict == SerializationFailed && |attempts| > 1 then
      var rest := Weave(after, c, attempts[1..], beforeLookup, lookupFails);
      Woven(rest.tables, rest.verdict, soFar + rest.history, a.others + rest.foreign)
    else if verdict == Duplicate then
      var u := Run(after, beforeLookup);
      var stored := StoredIds(u, c.orgId, c.Key());
      Woven(u, if lookupFails || stored == None then RolledBack else Replayed(stored.value),
            soFar + beforeLookup, a.others + beforeLookup)
    else Woven(after, verdict, soFar, a.others)
  }

  function Undisturbed(ids: NewIds, faults: seq<Fault>): seq<Attempt> {
    seq(|faults|, k requires 0 <= k < |faults| => Attempt([], ids, faults[k]))
  }

  /** Without interference this is what the adapter's retry loop is proved to do. */
  lemma {:induction false} UndisturbedCall(t: Tables, c: RemediationCommand, ids: NewIds, faults: seq<Fault>, lookupFails: bool)
    requires faults != []
    ensures var w := Weave(t, c, Undisturbed(ids, faults), [], lookupFails);
            (w.tables, w.verdict) == CallSpec(t, c, ids, faults, lookupFails)
  {
    var attempts := Undisturbed(ids, faults);
    assert attempts[0] == Attempt([], ids, faults[0]);
    if |faults| > 1 {
      assert attempts[1..] == Undisturbed(ids, faults[1..]);
      if faults[0] == Aborted { UndisturbedCall(t, c, ids, faults[1..], lookupFails); }
    }
  }

  // ---- A call is part of a history ---------------------------------------------

  lemma {:induction false} RunAppend(t: Tables, a: seq<Op>, b: seq<Op>)
    ensures Run(t, a + b) == Run(Run(t, a), b)
    ensures Legal(t, a + b) ==> Legal(t, a) && Legal(Run(t, a), b)
  {
    if b == [] {
      assert a + b == a;
    } else {
      RunAppend(t, a, b[..|b| - 1]);
      assert (a + b)[..|a + b| - 1] == a + b[..|b| - 1];
    }
  }

  lemma RunOne(t: Tables, a: seq<Op>, op: Op)
    ensures Run(t, a + [op]) == Step(Run(t, a), op)
    ensures Legal(t, a + [op]) ==> Legal(t, a) && Fresh(Run(t, a), op)
  {
    assert (a + [op])[..|a|] == a;
  }

  predicate Retried(attempts: seq<Attempt>)
    requires attempts != []
  {
    attempts[0].fault == Aborted && |attempts| > 1
  }

  function Mine(c: RemediationCommand, attempts: seq<Attempt>): Op
    requires attempts != []
  {
    Act(c, attempts[0].ids, attempts[0].fault)
  }

  lemma AbortedChangesNothing(t: Tables, c: RemediationCommand, attempts: seq<Attempt>, beforeLookup: seq<Op>, lookupFails: bool)
    requires attempts != [] && Retried(attempts)
    ensures var w := Weave(t, c, attempts, beforeLookup, lookupFails);
            var others := attempts[0].others;
            var rest := Weave(Run(t, others), c, attempts[1..], beforeLookup, lookupFails);
            w == Woven(rest.tables, rest.verdict, others + [Mine(c, attempts)] + rest.history, others + rest.foreign)
    ensures Step(Run(t, attempts[0].others), Mine(c, attempts)) == Run(t, attempts[0].others)
    ensures Run(t, attempts[0].others + [Mine(c, attempts)]) == Run(t, attempts[0].others)
  {
    RunOne(t, attempts[0].others, Mine(c, attempts));
  }

  lemma {:induction false} CallIsItsHistory(t: Tables, c: RemediationCommand, attempts: seq<Attempt>, beforeLookup: seq<Op>, lookupFails: bool)
    requires attempts != []
    ensures var w := Weave(t, c, attempts, beforeLookup, lookupFails); Run(t, w.history) == w.tables
    decreases |attempts|
  {
    var soFar := attempts[0].others + [Mine(c, attempts)];
    if Retried(attempts) {
      var before := Run(t, attempts[0].others);
      AbortedChangesNothing(t, c, attempts, beforeLookup, lookupFails);
      CallIsItsHistory(before, c, attempts[1..], beforeLookup, lookupFails);
      RunAppend(t, soFar, Weave(before, c, attempts[1..], beforeLookup, lookupFails).history);
    } else {
      RunOne(t, attempts[0].others, Mine(c, attempts));
      RunAppend(t, soFar, beforeLookup);
    }
  }

  // ---- At most one commit per call -----------------------------------------------

  /** The call's own effect is one commit, with these ids, after everything others did. */
  ghost predicate CommittedLast(t: Tables, w: Woven, c: RemediationCommand, ids: NewIds) {
    var before := Run(t, w.foreign);
    Commits(before, c, ids) && w.tables == Remediated(before, c, ids)
  }

  /** The call left no trace: the tables are what the others made of them. */
  ghost predicate Traceless(t: Tables, w: Woven) { w.tables == Run(t, w.foreign) }

  ghost predicate SomeAttemptCommitted(t: Tables, w: Woven, c: RemediationCommand, attempts: seq<Attempt>) {
    exists k :: 0 <= k < |attempts| && CommittedLast(t, w, c, attempts[k].ids)
  }

  ghost predicate Honest(t: Tables, w: Woven, c: RemediationCommand, attempts: seq<Attempt>) {
    && (Traceless(t, w) || SomeAttemptCommitted(t, w, c, attempts))
    && (w.verdict.Committed? ==> CommittedLast(t, w, c, w.verdict.ids))
    && (w.verdict.Replayed? || w.verdict.GateRejected? || w.verdict.SerializationFailed? ==> Traceless(t, w))
    && (w.verdict.Replayed? ==> StoredIds(w.tables, c.orgId, c.Key()) == Some(w.verdict.ids))
    && (w.verdict.Committed? || w.verdict.Replayed? || w.verdict.GateRejected? || w.verdict.SerializationFailed? || w.verdict.RolledBack?)
  }

  lemma LastAttemptIsHonest(t: Tables, c: RemediationCommand, attempts: seq<Attempt>, beforeLookup: seq<Op>, lookupFails: bool)
    requires attempts != [] && !Retried(attempts) && Unused(Run(t, attempts[0].others), attempts[0].ids)
    ensures Honest(t, Weave(t, c, attempts, beforeLookup, lookupFails), c, attempts)
  {
    var a := attempts[0];
    var w := Weave(t, c, attempts, beforeLookup, lookupFails);
    var verdict := ExecuteSpec(Run(t, a.others), c, a.ids, a.fault).1;
    if verdict == Duplicate {
      RunAppend(t, a.others, beforeLookup);
      assert Traceless(t, w);
    } else if w.tables == Run(t, a.others) {
      assert Traceless(t, w);
    } else {
      assert CommittedLast(t, w, c, attempts[0].ids);
    }
  }

  lemma EarlierTransactionsCount(t: Tables, w: Woven, earlier: seq<Op>, rest: Woven, c: RemediationCommand, attempts: seq<Attempt>)
    requires attempts != [] && w.tables == rest.tables && w.verdict == rest.verdict
    requires w.foreign == earlier + rest.foreign && Honest(Run(t, earlier), rest, c, attempts[1..])
    ensures Honest(t, w, c, attempts)
  {
    RunAppend(t, earlier, rest.foreign);
    if SomeAttemptCommitted(Run(t, earlier), rest, c, attempts[1..]) {
      var k :| 0 <= k < |attempts[1..]| && CommittedLast(Run(t, earlier), rest, c, attempts[1..][k].ids);
      assert CommittedLast(t, w, c, attempts[k + 1].ids);
    }
  }

  lemma FirstIdsAreUnused(t: Tables, c: RemediationCommand, attempts: seq<Attempt>, beforeLookup: seq<Op>, lookupFails: bool)
    requires attempts != [] && Legal(t, Weave(t, c, attempts, beforeLookup, lookupFails).history)
    ensures Unused(Run(t, attempts[0].others), attempts[0].ids)
  {
    StartsWithFirst(t, c, attempts, beforeLookup, lookupFails);
    PrefixIsLegal(t, attempts[0].others + [Mine(c, attempts)], Weave(t, c, attempts, beforeLookup, lookupFails).history);
    RunOne(t, attempts[0].others, Mine(c, attempts));
  }

  lemma StartsWithFirst(t: Tables, c: RemediationCommand, attempts: seq<Attempt>, beforeLookup: seq<Op>, lookupFails: bool)
    requires attempts != []
    ensures attempts[0].others + [Mine(c, attempts)] <= Weave(t, c, attempts, beforeLookup, lookupFails).history
  {}

  lemma PrefixIsLegal(t: Tables, a: seq<Op>, all: seq<Op>)
    requires a <= all && Legal(t, all)
    ensures Legal(t, a)
  {
    assert all == a + all[|a|..];
    RunAppend(t, a, all[|a|..]);
  }

  lemma {:induction false} EveryCallIsHonest(t: Tables, c: RemediationCommand, attempts: seq<Attempt>, beforeLookup: seq<Op>, lookupFails: bool)
    requires attempts != [] && Legal(t, Weave(t, c, attempts, beforeLookup, lookupFails).history)
    ensures Honest(t, Weave(t, c, attempts, beforeLookup, lookupFails), c, attempts)
    decreases |attempts|
  {
    if Retried(attempts) {
      var others := attempts[0].others;
      var rest := Weave(Run(t, others), c, attempts[1..], beforeLookup, lookupFails);
      AbortedChangesNothing(t, c, attempts, beforeLookup, lookupFails);
      RunAppend(t, others + [Mine(c, attempts)], rest.history);
      EveryCallIsHonest(Run(t, others), c, attempts[1..], beforeLookup, lookupFails);
      EarlierTransactionsCount(t, Weave(t, c, attempts, beforeLookup, lookupFails), others, rest, c, attempts);
    } else {
      FirstIdsAreUnused(t, c, attempts, beforeLookup, lookupFails);
      LastAttemptIsHonest(t, c, attempts, beforeLookup, lookupFails);
    }
  }

  /** Whatever befalls its attempts and whatever others commit between them, a call commits at
      most one remediation; when it names ids, they are the ones stored under its key. */
  lemma CallCommitsAtMostOnce(base: Tables, ops: seq<Op>, c: RemediationCommand, attempts: seq<Attempt>,
                              beforeLookup: seq<Op>, lookupFails: bool)
    requires Untouched(base) && attempts != []
    requires Legal(base, ops + Weave(Run(base, ops), c, attempts, beforeLookup, lookupFails).history)
    ensures var t := Run(base, ops);
            var w := Weave(t, c, attempts, beforeLookup, lookupFails);
            && Run(base, ops + w.history) == w.tables
            && Honest(t, w, c, attempts)
            && (w.verdict.Committed? || w.verdict.Replayed? ==> StoredIds(w.tables, c.orgId, c.Key()) == Some(w.verdict.ids))
  {
    var t := Run(base, ops);
    var w := Weave(t, c, attempts, beforeLookup, lookupFails);
    RunAppend(base, ops, w.history);
    CallIsItsHistory(t, c, attempts, beforeLookup, lookupFails);
    EveryCallIsHonest(t, c, attempts, beforeLookup, lookupFails);
    EveryHistoryIsSound(base, ops + w.history);
    if w.verdict.Committed? { CommittedIsStored(t, w, c, w.verdict.ids); }
  }

  lemma CommittedIsStored(t: Tables, w: Woven, c: RemediationCommand, ids: NewIds)
    requires CommittedLast(t, w, c, ids) && OneActionPerKey(w.tables)
    ensures StoredIds(w.tables, c.orgId, c.Key()) == Some(ids)
  {
    StoredIdsAre(w.tables, ids.actionId);
  }

  // ---- Exactly once ----------------------------------------------------------------

  ghost predicate HasIds(t: Tables, c: RemediationCommand, ids: NewIds) {
    KeyTaken(t, c.orgId, c.Key()) && StoredIds(t, c.orgId, c.Key()) == Some(ids)
  }

  /** The command's key is stored with these ids throughout the history. */
  ghost predicate KeepsIds(t: Tables, ops: seq<Op>, c: RemediationCommand, ids: NewIds) {
    forall n :: 0 <= n <= |ops| ==> HasIds(Run(t, ops[..n]), c, ids)
  }

  lemma KeepsIdsSplit(t: Tables, a: seq<Op>, b: seq<Op>, c: RemediationCommand, ids: NewIds)
    requires KeepsIds(t, a + b, c, ids)
    ensures HasIds(Run(t, a), c, ids) && KeepsIds(Run(t, a), b, c, ids)
  {
    assert (a + b)[..|a|] == a;
    forall n | 0 <= n <= |b| ensures HasIds(Run(Run(t, a), b[..n]), c, ids) {
      RunAppend(t, a, b[..n]);
      assert (a + b)[..|a| + n] == a + b[..n];
    }
  }

  /** What a repeated call may answer. */
  ghost predicate Repeats(t: Tables, w: Woven, c: RemediationCommand, ids: NewIds) {
    && Traceless(t, w)
    && (w.verdict == Replayed(ids) || (!w.verdict.Committed? && !w.verdict.Replayed?))
  }

  lemma LastAttemptRepeats(t: Tables, c: RemediationCommand, attempts: seq<Attempt>, beforeLookup: seq<Op>, lookupFails: bool, ids: NewIds)
    requires attempts != [] && !Retried(attempts)
    requires KeepsIds(t, Weave(t, c, attempts, beforeLookup, lookupFails).history, c, ids)
    ensures Repeats(t, Weave(t, c, attempts, beforeLookup, lookupFails), c, ids)
    ensures (attempts[0].fault == NoFault && !lookupFails) ==>
              Weave(t, c, attempts, beforeLookup, lookupFails).verdict ==
              if Gates(Run(t, attempts[0].others), c) then Replayed(ids) else GateRejected
  {
    var w := Weave(t, c, attempts, beforeLookup, lookupFails);
    var others := attempts[0].others;
    assert w.history == others + w.history[|others|..];
    KeepsIdsSplit(t, others, w.history[|others|..], c, ids);
    CallIsItsHistory(t, c, attempts, beforeLookup, lookupFails);
    assert w.history == w.history + [];
    KeepsIdsSplit(t, w.history, [], c, ids);
    RunAppend(t, others, beforeLookup);
  }

  lemma {:induction false} CallRepeats(t: Tables, c: RemediationCommand, attempts: seq<Attempt>, beforeLookup: seq<Op>, lookupFails: bool, ids: NewIds)
    requires attempts != []
    requires KeepsIds(t, Weave(t, c, attempts, beforeLookup, lookupFails).history, c, ids)
    ensures Repeats(t, Weave(t, c, attempts, beforeLookup, lookupFails), c, ids)
    decreases |attempts|
  {
    if Retried(attempts) {
      var others := attempts[0].others;
      var rest := Weave(Run(t, others), c, attempts[1..], beforeLookup, lookupFails);
      AbortedChangesNothing(t, c, attempts, beforeLookup, lookupFails);
      KeepsIdsSplit(t, others + [Mine(c, attempts)], rest.history, c, ids);
      CallRepeats(Run(t, others), c, attempts[1..], beforeLookup, lookupFails, ids);
      RunAppend(t, others, rest.foreign);
    } else {
      LastAttemptRepeats(t, c, attempts, beforeLookup, lookupFails, ids);
    }
  }

  /** A stored key stays stored, with the same ids, along any further transactions. */
  lemma IdsAreKept(base: Tables, ops: seq<Op>, more: seq<Op>, c: RemediationCommand)
    requires Untouched(base) && Legal(base, ops + more) && KeyTaken(Run(base, ops), c.orgId, c.Key())
    ensures StoredIds(Run(base, ops), c.orgId, c.Key()).Some?
    ensures HasIds(Run(base, ops + more), c, StoredIds(Run(base, ops), c.orgId, c.Key()).value)
  {
    NothingIsUndone(base, ops, more);
    EveryHistoryIsSound(base, ops);
    EveryHistoryIsSound(base, ops + more);
    StoredIdsKept(base, Run(base, ops), Run(base, ops + more), c.orgId, c.Key());
  }

  lemma Regroups<T>(a: seq<T>, b: seq<T>, c: seq<T>, d: seq<T>)
    ensures a + b + (c + d) == a + (b + c) + d && a + (b + c) == a + b + c
  {}

  lemma IdsAreKeptFor(base: Tables, ops: seq<Op>, more: seq<Op>, call: seq<Op>, rest: seq<Op>, c: RemediationCommand)
    requires Untouched(base) && Legal(base, ops + more + (call + rest)) && KeyTaken(Run(base, ops), c.orgId, c.Key())
    ensures StoredIds(Run(base, ops), c.orgId, c.Key()).Some?
    ensures HasIds(Run(Run(base, ops + more), call), c, StoredIds(Run(base, ops), c.orgId, c.Key()).value)
  {
    Regroups(ops, more, call, rest);
    RunAppend(base, ops + (more + call), rest);
    IdsAreKept(base, ops, more + call, c);
    RunAppend(base, ops + more, call);
  }

  lemma IdsAreKeptThroughout(base: Tables, ops: seq<Op>, more: seq<Op>, call: seq<Op>, c: RemediationCommand)
    requires Untouched(base) && Legal(base, ops + more + call) && KeyTaken(Run(base, ops), c.orgId, c.Key())
    ensures StoredIds(Run(base, ops), c.orgId, c.Key()).Some?
    ensures KeepsIds(Run(base, ops + more), call, c, StoredIds(Run(base, ops), c.orgId, c.Key()).value)
  {
    assert call == [] + call;
    IdsAreKeptFor(base, ops, more, [], call, c);
    forall n | 0 <= n <= |call|
      ensures HasIds(Run(Run(base, ops + more), call[..n]), c, StoredIds(Run(base, ops), c.orgId, c.Key()).value)
    {
      assert call == call[..n] + call[n..];
      IdsAreKeptFor(base, ops, more, call[..n], call[n..], c);
    }
  }

  /** Exactly once: from the moment a command's key is stored, a repeated call leaves no trace,
      whatever others do before, between and after its attempts, and its only success is the
      original's ids. */
  lemma ExactlyOnce(base: Tables, ops: seq<Op>, more: seq<Op>, c: RemediationCommand,
                    attempts: seq<Attempt>, beforeLookup: seq<Op>, lookupFails: bool)
    requires Untouched(base) && attempts != [] && KeyTaken(Run(base, ops), c.orgId, c.Key())
    requires Legal(base, ops + more + Weave(Run(base, ops + more), c, attempts, beforeLookup, lookupFails).history)
    ensures var stored := StoredIds(Run(base, ops), c.orgId, c.Key());
            var t := Run(base, ops + more);
            var w := Weave(t, c, attempts, beforeLookup, lookupFails);
            && stored.Some? && Repeats(t, w, c, stored.value)
            && ((attempts[0].fault == NoFault && !lookupFails) ==>
                  w.verdict == if Gates(Run(t, attempts[0].others), c) then Replayed(stored.value) else GateRejected)
  {
    var t := Run(base, ops + more);
    var w := Weave(t, c, attempts, beforeLookup, lookupFails);
    IdsAreKeptThroughout(base, ops, more, w.history, c);
    var ids := StoredIds(Run(base, ops), c.orgId, c.Key()).value;
    CallRepeats(t, c, attempts, beforeLookup, lookupFails, ids);
    if !Retried(attempts) { LastAttemptRepeats(t, c, attempts, beforeLookup, lookupFails, ids); }
  }

  // ---- One commit per key, over whole histories --------------------------------------

  /** The transaction is a remediation under the key, and it commits. */
  ghost predicate CommitsUnder(t: Tables, op: Op, orgId: int, key: ActionKey) {
    op.Act? && op.command.orgId == orgId && op.command.Key() == key && Step(t, op) != t
  }

  ghost function CommitCount(t: Tables, ops: seq<Op>, orgId: int, key: ActionKey): nat {
    if ops == [] then 0
    else
      var front := ops[..|ops| - 1];
      CommitCount(t, front, orgId, key) + if CommitsUnder(Run(t, front), ops[|ops| - 1], orgId, key) then 1 else 0
  }

  lemma StepTakesKey(t: Tables, op: Op, orgId: int, key: ActionKey)
    requires Fresh(t, op)
    ensures CommitsUnder(t, op, orgId, key) ==> !KeyTaken(t, orgId, key)
    ensures KeyTaken(Step(t, op), orgId, key) <==> KeyTaken(t, orgId, key) || CommitsUnder(t, op, orgId, key)
  {
    var u := Step(t, op);
    if op.Act? && u != t {
      ActTakesKey(t, op.command, op.ids, orgId, key);
    } else if u != t {
      JudgeTakesNoKey(t, op.outcome, op.eventId, orgId, key);
    }
  }

  lemma ActTakesKey(t: Tables, c: RemediationCommand, ids: NewIds, orgId: int, key: ActionKey)
    requires Gates(t, c) && Unused(t, ids)
    ensures KeyTaken(Remediated(t, c, ids), orgId, key) <==> KeyTaken(t, orgId, key) || (c.orgId == orgId && c.Key() == key)
  {
    var u := Remediated(t, c, ids);
    assert Holds(u.actions[ids.actionId], c.orgId, c.Key());
    if KeyTaken(t, orgId, key) {
      var a :| a in t.actions && Holds(t.actions[a], orgId, key);
      assert a in u.actions && Holds(u.actions[a], orgId, key);
    }
  }

  lemma JudgeTakesNoKey(t: Tables, c: OutcomeCommand, eventId: int, orgId: int, key: ActionKey)
    requires OutcomeTarget(t, c)
    ensures KeyTaken(WithOutcome(t, c, eventId), orgId, key) <==> KeyTaken(t, orgId, key)
  {
    var u := WithOutcome(t, c, eventId);
    assert forall a :: a in t.actions ==> (Holds(u.actions[a], orgId, key) <==> Holds(t.actions[a], orgId, key));
  }

  /** Over any history, of any clients and calls, a key's remediation commits at most once,
      and exactly once if the key is stored at the end. */
  lemma {:induction false} OneCommitPerKey(base: Tables, ops: seq<Op>, orgId: int, key: ActionKey)
    requires base.actions == map[] && Legal(base, ops)
    ensures CommitCount(base, ops, orgId, key) == if KeyTaken(Run(base, ops), orgId, key) then 1 else 0
  {
    if ops != [] {
      OneCommitPerKey(base, ops[..|ops| - 1], orgId, key);
      StepTakesKey(Run(base, ops[..|ops| - 1]), ops[|ops| - 1], orgId, key);
    }
  }
}
