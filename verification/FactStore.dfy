/** The bitemporal fact table and its transition
    (backend/src/postmortem_backend/adapters/recall.py:53-194, 340-373). */
module FactStore {
  import opened Contracts

  datatype FactKey = FactKey(orgId: int, subject: string, predicate_: string)

  /** valid_from..valid_to is business time, half open; recorded_at is system time. */
  datatype Fact = Fact(
    key: FactKey, object_: string, validFrom: int, validTo: Option<int>,
    recordedAt: int, supersededBy: Option<int>)

  type Facts = map<int, Fact>

  /** One call's parameters: the id and the instant are fixed before the first attempt. */
  datatype Call = Call(id: int, key: FactKey, object_: string, at: int)

  /** What one attempt writes: the call, with the now() of the attempt's own transaction. */
  datatype Transition = Transition(id: int, key: FactKey, object_: string, at: int, recordedAt: int)

  function Stamped(call: Call, now: int): Transition {
    Transition(call.id, call.key, call.object_, call.at, now)
  }

  /** CheckViolated: the schema's valid_to > valid_from; Conflict: 40001 or 23505. */
  datatype SqlError = CheckViolated | Conflict

  datatype TransitionResult = Committed(superseded: Option<int>) | WrongDimensions | TransitionFailed

  predicate OpenFor(f: Fact, key: FactKey) { f.key == key && f.validTo == None }

  predicate HasOpen(facts: Facts, key: FactKey) {
    exists id :: id in facts && OpenFor(facts[id], key)
  }

  // ---- The three statements -----------------------------------------------

  function CloseAll(facts: Facts, key: FactKey, at: int): Facts {
    map id | id in facts :: if OpenFor(facts[id], key) then facts[id].(validTo := Some(at)) else facts[id]
  }

  predicate CloseAllowed(facts: Facts, key: FactKey, at: int) {
    forall id :: id in facts && OpenFor(facts[id], key) ==> facts[id].validFrom < at
  }

  class SemanticFacts {
    var facts: Facts

    constructor ()
      ensures facts == map[]
    {
      facts := map[];
    }

    /** CLOSE_SUPERSEDED_FACT_SQL: closes the open row and returns its id. */
    method Close(key: FactKey, at: int) returns (closed: Option<int>, error: Option<SqlError>)
      modifies this
      ensures error == None <==> CloseAllowed(old(facts), key, at)
      ensures error.Some? ==> facts == old(facts) && error == Some(CheckViolated)
      ensures error == None ==> facts == CloseAll(old(facts), key, at)
      ensures error == None ==>
                if closed == None then !HasOpen(old(facts), key)
                else closed.value in old(facts) && OpenFor(old(facts)[closed.value], key)
    {
      closed, error := None, None;
      if !CloseAllowed(facts, key, at) {
        error := Some(CheckViolated);
        return;
      }
      if id :| id in facts && OpenFor(facts[id], key) {
        closed := Some(id);
      }
      facts := CloseAll(facts, key, at);
    }

    /** INSERT_TRANSITIONED_FACT_SQL, refused by the partial unique index while another row
        of the key is open, and by the unique fact id. */
    method Insert(p: Transition) returns (error: Option<SqlError>)
      modifies this
      ensures error == None <==> !HasOpen(old(facts), p.key) && p.id !in old(facts)
      ensures error.Some? ==> facts == old(facts) && error == Some(Conflict)
      ensures error == None ==> facts == old(facts)[p.id := Fact(p.key, p.object_, p.at, None, p.recordedAt, None)]
    {
      if HasOpen(facts, p.key) || p.id in facts {
        return Some(Conflict);
      }
      facts := facts[p.id := Fact(p.key, p.object_, p.at, None, p.recordedAt, None)];
      error := None;
    }

    /** LINK_SUPERSEDED_FACT_SQL */
    method Link(oldId: int, newId: int)
      requires oldId in facts
      modifies this
      ensures facts == old(facts)[oldId := old(facts)[oldId].(supersededBy := Some(newId))]
    {
      facts := facts[oldId := facts[oldId].(supersededBy := Some(newId))];
    }

    /** One transaction: CLOSE, INSERT, LINK, or nothing. */
    method TransitionFactOnce(p: Transition) returns (closed: Option<int>, error: Option<SqlError>)
      requires OneOpenRow(facts)
      modifies this
      ensures error == None <==> CloseAllowed(old(facts), p.key, p.at) && p.id !in old(facts)
      ensures error.Some? ==> facts == old(facts)
      ensures error == Some(CheckViolated) <==> !CloseAllowed(old(facts), p.key, p.at)
      ensures error == Some(Conflict) <==> CloseAllowed(old(facts), p.key, p.at) && p.id in old(facts)
      ensures error == None ==> facts == Transitioned(old(facts), p) && closed == OpenRow(old(facts), p.key)
    {
      var begun := facts;
      closed, error := Close(p.key, p.at);
      if error.Some? { return; }
      ClosesOne(begun, p.key, p.at);
      error := Insert(p);
      if error.Some? {
        facts := begun;
        return;
      }
      if closed.Some? {
        OpenRowIs(begun, p.key, closed.value);
        Link(closed.value, p.id);
      }
      assert facts == Transitioned(begun, p);
    }

    /** The retry loop. aborted[k] says whether the database aborts attempt k with 40001 or
        23505, and clock[k] is its now(); the parameters are the same in every attempt, and
        only a conflict is retried. */
    method TransitionFact(call: Call, dimensions: nat, maxRetries: nat, aborted: seq<bool>, clock: seq<int>)
      returns (result: TransitionResult, attempts: nat)
      requires OneOpenRow(facts) && |aborted| == |clock| == maxRetries + 1
      modifies this
      ensures dimensions != EMBEDDING_DIMENSIONS ==> result == WrongDimensions && attempts == 0
      ensures dimensions == EMBEDDING_DIMENSIONS ==> 0 < attempts <= maxRetries + 1 && !result.WrongDimensions?
      ensures result.Committed? <==>
                && dimensions == EMBEDDING_DIMENSIONS && (exists k :: 0 <= k <= maxRetries && !aborted[k])
                && CloseAllowed(old(facts), call.key, call.at) && call.id !in old(facts)
      ensures result.Committed? ==>
                && facts == Transitioned(old(facts), Stamped(call, clock[attempts - 1]))
                && result.superseded == OpenRow(old(facts), call.key)
                && !aborted[attempts - 1] && forall k :: 0 <= k < attempts - 1 ==> aborted[k]
      ensures !result.Committed? ==> facts == old(facts)
      ensures result == TransitionFailed ==>
                || attempts == maxRetries + 1
                || (!aborted[attempts - 1] && !CloseAllowed(old(facts), call.key, call.at))
    {
      if dimensions != EMBEDDING_DIMENSIONS {
        return WrongDimensions, 0;
      }
      attempts := 0;
      while attempts <= maxRetries
        invariant 0 <= attempts <= maxRetries
        invariant facts == old(facts)
        invariant forall k :: 0 <= k < attempts ==> aborted[k] || call.id in facts
        invariant call.id !in facts ==> forall k :: 0 <= k < attempts ==> aborted[k]
      {
        attempts := attempts + 1;
        var error: Option<SqlError> := Some(Conflict);
        var closed: Option<int> := None;
        if !aborted[attempts - 1] {
          closed, error := TransitionFactOnce(Stamped(call, clock[attempts - 1]));
        }
        if error == None {
          return Committed(closed), attempts;
        }
        if error != Some(Conflict) || attempts > maxRetries {
          return TransitionFailed, attempts;
        }
      }
      assert false;
    }
  }

  // ---- What one transaction does ------------------------------------------

  /** The partial unique index: at most one open row per key. */
  ghost predicate OneOpenRow(facts: Facts) {
    forall a, b :: (a in facts && b in facts && facts[a].key == facts[b].key
                    && facts[a].validTo == None && facts[b].validTo == None) ==> a == b
  }

  ghost function OpenRow(facts: Facts, key: FactKey): Option<int> {
    if id :| id in facts && OpenFor(facts[id], key) then Some(id) else None
  }

  lemma OpenRowIs(facts: Facts, key: FactKey, id: int)
    requires OneOpenRow(facts) && id in facts && OpenFor(facts[id], key)
    ensures OpenRow(facts, key) == Some(id)
  {}

  lemma ClosesOne(facts: Facts, key: FactKey, at: int)
    requires OneOpenRow(facts)
    ensures OpenRow(facts, key) == None <==> !HasOpen(facts, key)
    ensures var current := OpenRow(facts, key);
            CloseAll(facts, key, at) == if current == None then facts
                                        else facts[current.value := facts[current.value].(validTo := Some(at))]
  {
    var current := OpenRow(facts, key);
    var after := CloseAll(facts, key, at);
    if current == None {
      assert forall id :: id in facts ==> !OpenFor(facts[id], key);
      assert after == facts;
    } else {
      var id := current.value;
      assert id in facts && OpenFor(facts[id], key);
      forall x | x in facts ensures after[x] == facts[id := facts[id].(validTo := Some(at))][x] {
        if OpenFor(facts[x], key) { assert x == id; }
      }
    }
  }

  ghost function Transitioned(facts: Facts, p: Transition): Facts {
    var current := OpenRow(facts, p.key);
    var inserted := facts[p.id := Fact(p.key, p.object_, p.at, None, p.recordedAt, None)];
    if current == None then inserted
    else inserted[current.value := facts[current.value].(validTo := Some(p.at), supersededBy := Some(p.id))]
  }
}
