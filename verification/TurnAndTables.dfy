/** A responder turn over the database (backend/src/postmortem_backend/service.py:84-386,
    adapters/cockroach.py:200-265): what its trace says about the tables, with aborts, lost
    acknowledgements and other clients in between. */
module TurnAndTables {
  import opened Contracts
  import opened OperationalStore
  import opened OperationalHistory
  import opened RemediationCalls
  import opened Turn

  /** The adapter's refusals before any transaction, or its call among other clients. */
  ghost function StoreCall(t: Tables, c: RemediationCommand, dimensions: nat, blank: string -> bool,
                           attempts: seq<Attempt>, beforeLookup: seq<Op>, lookupFails: bool): Woven
    requires attempts != []
  {
    var refusal := Validation(c, dimensions, blank);
    if refusal.Some? then Woven(t, refusal.value, [], []) else Weave(t, c, attempts, beforeLookup, lookupFails)
  }

  /** The call returned ids; every other verdict is an exception. */
  predicate Returned(v: Remediation) { v.Committed? || v.Replayed? }

  function TraceOf(p: Ports, r: Request, text: Text, v: Remediation): seq<EventType> {
    WordOf(EndingOf(p, r, text, Returned(v)))
  }

  /** The attempt that was not retried met open gates and a free key, committed, and lost its
      acknowledgement. */
  ghost predicate AckLostIn(t: Tables, c: RemediationCommand, attempts: seq<Attempt>)
    requires attempts != []
    decreases |attempts|
  {
    var before := Run(t, attempts[0].others);
    if Retried(attempts) then AckLostIn(before, c, attempts[1..])
    else attempts[0].fault == AckLost && Gates(before, c) && !KeyTaken(before, c.orgId, c.Key())
  }

  lemma LastAttemptTraceless(t: Tables, c: RemediationCommand, attempts: seq<Attempt>, beforeLookup: seq<Op>, lookupFails: bool)
    requires attempts != [] && !Retried(attempts) && Unused(Run(t, attempts[0].others), attempts[0].ids)
    ensures var w := Weave(t, c, attempts, beforeLookup, lookupFails);
            !Returned(w.verdict) ==> (Traceless(t, w) <==> !AckLostIn(t, c, attempts))
  {
    var a := attempts[0];
    var before := Run(t, a.others);
    RunAppend(t, a.others, beforeLookup);
    if Gates(before, c) {
      assert a.ids.deployId in Remediated(before, c, a.ids).deploys && a.ids.deployId !in before.deploys;
    }
  }

  /** A call that raised left no trace exactly when no acknowledgement of its own was lost. */
  lemma {:induction false} RaisedTracelessIff(t: Tables, c: RemediationCommand, attempts: seq<Attempt>, beforeLookup: seq<Op>, lookupFails: bool)
    requires attempts != [] && Legal(t, Weave(t, c, attempts, beforeLookup, lookupFails).history)
    ensures var w := Weave(t, c, attempts, beforeLookup, lookupFails);
            !Returned(w.verdict) ==> (Traceless(t, w) <==> !AckLostIn(t, c, attempts))
    decreases |attempts|
  {
    if Retried(attempts) {
      var others := attempts[0].others;
      var rest := Weave(Run(t, others), c, attempts[1..], beforeLookup, lookupFails);
      AbortedChangesNothing(t, c, attempts, beforeLookup, lookupFails);
      RunAppend(t, others + [Mine(c, attempts)], rest.history);
      RaisedTracelessIff(Run(t, others), c, attempts[1..], beforeLookup, lookupFails);
      RunAppend(t, others, rest.foreign);
    } else {
      FirstIdsAreUnused(t, c, attempts, beforeLookup, lookupFails);
      LastAttemptTraceless(t, c, attempts, beforeLookup, lookupFails);
    }
  }

  /** What a turn that reached the store says about the tables: "committed" is always true of
      the ids it answers, and "rolled back" is true exactly when the call was refused up front
      or lost no acknowledgement of a commit. */
  lemma RolledBackIsTrueIff(base: Tables, ops: seq<Op>, p: Ports, r: Request, text: Text, blank: string -> bool,
                            attempts: seq<Attempt>, beforeLookup: seq<Op>, lookupFails: bool)
    requires Untouched(base) && attempts != [] && Executes(p, r, text)
    requires Legal(base, ops + StoreCall(Run(base, ops), CommandOf(p, r).value, p.embedAction.value, blank,
                                         attempts, beforeLookup, lookupFails).history)
    ensures var t := Run(base, ops);
            var c := CommandOf(p, r).value;
            var w := StoreCall(t, c, p.embedAction.value, blank, attempts, beforeLookup, lookupFails);
            var trace := TraceOf(p, r, text, w.verdict);
            && Word(trace)
            && (TransactionCommitted in trace <==> !(TransactionRolledBack in trace))
            && (TransactionCommitted in trace ==> StoredIds(w.tables, c.orgId, c.Key()) == Some(w.verdict.ids))
            && (TransactionRolledBack in trace ==>
                  (Traceless(t, w) <==> Validation(c, p.embedAction.value, blank).Some? || !AckLostIn(t, c, attempts)))
  {
    var t := Run(base, ops);
    var c := CommandOf(p, r).value;
    var w := StoreCall(t, c, p.embedAction.value, blank, attempts, beforeLookup, lookupFails);
    TraceTellsTheTruth(p, r, text, Returned(w.verdict));
    RunAppend(base, ops, w.history);
    if Validation(c, p.embedAction.value, blank).None? {
      CallCommitsAtMostOnce(base, ops, c, attempts, beforeLookup, lookupFails);
      RaisedTracelessIff(t, c, attempts, beforeLookup, lookupFails);
    }
  }

  // ---- The failing turn -----------------------------------------------------------

  function RollBackCommand(): RemediationCommand { RollBackScene().command }

  function LostAck(): Attempt { Attempt([], RollBackScene().ids, AckLost) }

  /** Ports that recall memory 1 and decide to roll back. */
  function WillingPorts(): Ports {
    Ports(Answers(()), Answers(EMBEDDING_DIMENSIONS), Answers([1]), Answers([1]),
          Answers(Decision(Remediate, Some(RollBackCommand()))), Answers(EMBEDDING_DIMENSIONS), RollBackScene().ids)
  }

  /** On the one-service scene, a rollback whose acknowledgement is lost is traced as rolled
      back although its deploy is in the tables. */
  lemma LostAckIsTracedAsRolledBack(openedAt: int, text: Text)
    ensures Executes(WillingPorts(), Request(1, [], false, None), text)
    ensures var t := Scene(openedAt);
            var w := StoreCall(t, RollBackCommand(), EMBEDDING_DIMENSIONS, _ => false, [LostAck()], [], false);
            && Untouched(t) && Legal(t, w.history)
            && TransactionRolledBack in TraceOf(WillingPorts(), Request(1, [], false, None), text, w.verdict)
            && w.tables == Remediated(t, RollBackCommand(), LostAck().ids) && !Traceless(t, w)
  {
    var t := Scene(openedAt);
    var w := StoreCall(t, RollBackCommand(), EMBEDDING_DIMENSIONS, _ => false, [LostAck()], [], false);
    SceneIsActedOn(openedAt);
    assert !KeyTaken(t, 1, RollBackCommand().Key());
    assert Run(t, []) == t;
    assert w.history == [Act(RollBackCommand(), LostAck().ids, AckLost)];
    RunOne(t, [], w.history[0]);
    assert [] + w.history == w.history;
    assert Legal(t, []) && Fresh(t, w.history[0]);
    assert w.history[..0] == [];
    TraceTellsTheTruth(WillingPorts(), Request(1, [], false, None), text, false);
    assert 1 in w.tables.deploys && 1 !in t.deploys;
  }
}
