/** Concurrent transition_fact clients as step machines
    (backend/src/postmortem_backend/adapters/recall.py:279-373). A client fixes its fact id
    and its instant once, then begins attempts, each with a now() of its own; an attempt either
    finishes against the open row it began with, or is aborted with 40001 or 23505 and retried. */
module FactConcurrency {
  import opened Contracts
  import opened FactStore
  import opened FactChains
  import opened Sorting

  datatype Client =
    | Waiting(attempt: nat)
    | Running(attempt: nat, seen: Option<int>, now: int)  // the key's open row when the attempt began
    | Done(closed: Option<int>)
    | Rejected    // the window check refused the instant: not retried
    | Exhausted   // a conflict on the last attempt

  /** Per client, the parameters of its one call. */
  type Calls = map<int, Call>

  datatype World = World(facts: Facts, log: seq<Transition>, clients: map<int, Client>)

  datatype Step = Begin(client: int, now: int) | Finish(client: int) | Abort(client: int)

  ghost predicate Fits(calls: Calls, w: World) {
    && w.clients.Keys == calls.Keys
    && forall a, b :: a in calls && b in calls && calls[a].id == calls[b].id ==> a == b
  }

  ghost predicate Conflicted(calls: Calls, w: World, c: int)
    requires Fits(calls, w) && c in calls && w.clients[c].Running?
  {
    OpenRow(w.facts, calls[c].key) != w.clients[c].seen
  }

  ghost predicate Enabled(calls: Calls, w: World, step: Step) {
    && Fits(calls, w) && step.client in calls
    && match step
       case Begin(c, _) => w.clients[c].Waiting?
       case Finish(c) => w.clients[c].Running? && !Conflicted(calls, w, c)
       case Abort(c) => w.clients[c].Running?
  }

  ghost function Next(calls: Calls, maxRetries: nat, w: World, step: Step): World
    requires Enabled(calls, w, step)
  {
    var p := calls[step.client];
    var me := w.clients[step.client];
    match step
    case Begin(c, now) => w.(clients := w.clients[c := Running(me.attempt, OpenRow(w.facts, p.key), now)])
    case Abort(c) =>
      w.(clients := w.clients[c := if me.attempt >= maxRetries then Exhausted else Waiting(me.attempt + 1)])
    case Finish(c) =>
      if CloseAllowed(w.facts, p.key, p.at)
      then World(Transitioned(w.facts, Stamped(p, me.now)), w.log + [Stamped(p, me.now)], w.clients[c := Done(me.seen)])
      else w.(clients := w.clients[c := Rejected])
  }

  ghost predicate Legal(calls: Calls, maxRetries: nat, w: World, steps: seq<Step>)
    decreases |steps|, 0
  {
    steps == []
    || (Legal(calls, maxRetries, w, steps[..|steps| - 1])
        && Enabled(calls, After(calls, maxRetries, w, steps[..|steps| - 1]), steps[|steps| - 1]))
  }

  ghost function After(calls: Calls, maxRetries: nat, w: World, steps: seq<Step>): World
    requires Legal(calls, maxRetries, w, steps)
    decreases |steps|, 1
  {
    if steps == [] then w
    else Next(calls, maxRetries, After(calls, maxRetries, w, steps[..|steps| - 1]), steps[|steps| - 1])
  }

  /** Every client is about to make its first attempt on a well-formed table. */
  ghost predicate Starting(calls: Calls, w: World) {
    Fits(calls, w) && Chains(w.facts, w.log) && Untried(calls, w)
  }

  ghost predicate Untried(calls: Calls, w: World)
    requires Fits(calls, w)
  {
    forall c :: c in calls ==> w.clients[c] == Waiting(0) && calls[c].id !in w.facts
  }

  // ---- Safety: any interleaving, any aborts --------------------------------

  ghost function Finished(w: World): set<int> {
    set c | c in w.clients && w.clients[c].Done?
  }

  ghost function FinishedOn(calls: Calls, w: World, key: FactKey): set<int> {
    set c | c in w.clients && c in calls && w.clients[c].Done? && calls[c].key == key
  }

  ghost predicate OneRowPerSuccess(calls: Calls, start: World, w: World) {
    && w.facts.Keys == start.facts.Keys + IdsOf(calls, Finished(w))
    && |w.facts| == |start.facts| + |Finished(w)|
  }

  ghost predicate OneLinkPerSuccess(calls: Calls, start: World, w: World) {
    forall key :: |OfKey(w.log, key)| == |OfKey(start.log, key)| + |FinishedOn(calls, w, key)|
  }

  ghost predicate LogHoldsSuccesses(calls: Calls, start: World, w: World) {
    && start.log <= w.log
    && forall t :: t in w.log ==> t in start.log || CallOfDone(calls, w, t)
  }

  ghost predicate CallOfDone(calls: Calls, w: World, t: Transition) {
    exists c :: c in calls && c in w.clients && Stamped(calls[c], t.recordedAt) == t && w.clients[c].Done?
  }

  ghost predicate Safe(calls: Calls, start: World, w: World) {
    && Fits(calls, w)
    && Chains(w.facts, w.log)
    && OneRowPerSuccess(calls, start, w)
    && OneLinkPerSuccess(calls, start, w)
    && LogHoldsSuccesses(calls, start, w)
  }

  ghost function IdsOf(calls: Calls, clients: set<int>): set<int> {
    set c | c in clients && c in calls :: calls[c].id
  }

  lemma IdIsFresh(calls: Calls, start: World, w: World, c: int)
    requires Fits(calls, start) && Untried(calls, start) && Fits(calls, w) && OneRowPerSuccess(calls, start, w)
    requires c in calls && !w.clients[c].Done?
    ensures calls[c].id !in w.facts
  {
    assert calls[c].id !in start.facts;
    assert calls[c].id !in IdsOf(calls, Finished(w));
    assert calls[c].id !in w.facts.Keys;
  }

  lemma IdsGrow(calls: Calls, clients: set<int>, c: int)
    requires c in calls
    ensures IdsOf(calls, clients + {c}) == IdsOf(calls, clients) + {calls[c].id}
  {}

  lemma FinishedGrows(w: World, c: int, t: World)
    requires c in w.clients && !w.clients[c].Done? && Becomes(w, c, t) && t.clients[c].Done?
    ensures Finished(t) == Finished(w) + {c}
    ensures |Finished(t)| == |Finished(w)| + 1
  {
    assert Finished(t) == Finished(w) + {c} && c !in Finished(w);
  }

  lemma RowsGrow(calls: Calls, start: World, w: World, c: int, t: World)
    requires OneRowPerSuccess(calls, start, w) && c in calls
    requires Finished(t) == Finished(w) + {c} && |Finished(t)| == |Finished(w)| + 1
    requires t.facts.Keys == w.facts.Keys + {calls[c].id} && |t.facts| == |w.facts| + 1
    ensures OneRowPerSuccess(calls, start, t)
  {
    IdsGrow(calls, Finished(w), c);
    UnionRegroups(start.facts.Keys, IdsOf(calls, Finished(w)), {calls[c].id});
  }

  lemma UnionRegroups<T>(a: set<T>, b: set<T>, c: set<T>)
    ensures (a + b) + c == a + (b + c)
  {}

  /** Only client c is different in t. */
  ghost predicate Becomes(w: World, c: int, t: World) {
    c in t.clients && t.clients == w.clients[c := t.clients[c]]
  }

  lemma KeysGrow(facts: Facts, p: Transition)
    requires p.id !in facts
    ensures Transitioned(facts, p).Keys == facts.Keys + {p.id}
    ensures |Transitioned(facts, p)| == |facts| + 1
  {
    var after := Transitioned(facts, p);
    assert after.Keys == facts.Keys + {p.id};
    assert |after| == |after.Keys| && |facts| == |facts.Keys|;
  }

  lemma LinksGrow(calls: Calls, start: World, w: World, c: int, t: World, now: int)
    requires Fits(calls, w) && OneLinkPerSuccess(calls, start, w)
    requires c in calls && !w.clients[c].Done?
    requires Becomes(w, c, t) && t.clients[c].Done? && t.log == w.log + [Stamped(calls[c], now)]
    ensures OneLinkPerSuccess(calls, start, t)
  {
    forall key ensures |OfKey(t.log, key)| == |OfKey(start.log, key)| + |FinishedOn(calls, t, key)| {
      LinksOf(calls, start, w, key);
      OfKeyAppend(w.log, Stamped(calls[c], now), key);
      FinishedOnGrows(calls, w, c, t, key);
    }
  }

  lemma FinishedOnGrows(calls: Calls, w: World, c: int, t: World, key: FactKey)
    requires Fits(calls, w) && c in calls && !w.clients[c].Done?
    requires Becomes(w, c, t) && t.clients[c].Done?
    ensures |FinishedOn(calls, t, key)| == |FinishedOn(calls, w, key)| + if calls[c].key == key then 1 else 0
  {
    assert FinishedOn(calls, t, key) == FinishedOn(calls, w, key) + if calls[c].key == key then {c} else {};
  }

  lemma LogGrows(calls: Calls, start: World, w: World, c: int, t: World, now: int)
    requires Fits(calls, w) && LogHoldsSuccesses(calls, start, w)
    requires c in calls && !w.clients[c].Done?
    requires Becomes(w, c, t)
    requires t.log == w.log || (t.log == w.log + [Stamped(calls[c], now)] && t.clients[c].Done?)
    ensures LogHoldsSuccesses(calls, start, t)
  {
    forall x | x in t.log ensures x in start.log || CallOfDone(calls, t, x) {
      if x in w.log && x !in start.log {
        assert CallOfDone(calls, w, x);
        var d :| d in calls && d in w.clients && Stamped(calls[d], x.recordedAt) == x && w.clients[d].Done?;
        assert t.clients[d].Done?;
      } else if x !in start.log {
        assert x == Stamped(calls[c], x.recordedAt) && t.clients[c].Done?;
      }
    }
  }

  lemma FinishOne(calls: Calls, start: World, w: World, c: int, t: World, p: Transition)
    requires Starting(calls, start) && Safe(calls, start, w)
    requires c in calls && w.clients[c].Running? && CloseAllowed(w.facts, calls[c].key, calls[c].at)
    requires Becomes(w, c, t) && t.clients[c].Done?
    requires p == Stamped(calls[c], p.recordedAt)
    requires t.facts == Transitioned(w.facts, p) && t.log == w.log + [p]
    ensures Safe(calls, start, t)
  {
    IdIsFresh(calls, start, w, c);
    KeysGrow(w.facts, p);
    FinishedGrows(w, c, t);
    RowsGrow(calls, start, w, c, t);
    TransitionExtends(w.facts, w.log, p);
    LinksGrow(calls, start, w, c, t, p.recordedAt);
    LogGrows(calls, start, w, c, t, p.recordedAt);
  }

  lemma IdleStep(calls: Calls, start: World, w: World, c: int, t: World)
    requires Safe(calls, start, w)
    requires c in calls && !w.clients[c].Done?
    requires Becomes(w, c, t) && !t.clients[c].Done? && t.facts == w.facts && t.log == w.log
    ensures Safe(calls, start, t)
  {
    assert Finished(t) == Finished(w);
    forall key ensures FinishedOn(calls, t, key) == FinishedOn(calls, w, key) {}
    LogGrows(calls, start, w, c, t, 0);
  }

  lemma StepIsSafe(calls: Calls, maxRetries: nat, start: World, w: World, step: Step)
    requires Starting(calls, start) && Safe(calls, start, w) && Enabled(calls, w, step)
    ensures Safe(calls, start, Next(calls, maxRetries, w, step))
  {
    var t := Next(calls, maxRetries, w, step);
    if step.Finish? && CloseAllowed(w.facts, calls[step.client].key, calls[step.client].at) {
      var c := step.client;
      FinishOne(calls, start, w, c, t, Stamped(calls[c], w.clients[c].now));
    } else {
      IdleStep(calls, start, w, step.client, t);
    }
  }

  lemma StartIsSafe(calls: Calls, start: World)
    requires Starting(calls, start)
    ensures Safe(calls, start, start)
  {
    forall c | c in start.clients ensures !start.clients[c].Done? { assert c in calls; }
    assert Finished(start) == {};
    forall key ensures FinishedOn(calls, start, key) == {} {}
  }

  /** In every interleaving, the rows of each key form one supersession chain of exactly the
      committed calls, one new row per success and none for a call that failed. */
  lemma {:induction false} EveryInterleavingIsSafe(calls: Calls, maxRetries: nat, start: World, steps: seq<Step>)
    requires Starting(calls, start) && Legal(calls, maxRetries, start, steps)
    ensures Safe(calls, start, After(calls, maxRetries, start, steps))
  {
    if steps == [] {
      StartIsSafe(calls, start);
    } else {
      var front := steps[..|steps| - 1];
      EveryInterleavingIsSafe(calls, maxRetries, start, front);
      StepIsSafe(calls, maxRetries, start, After(calls, maxRetries, start, front), steps[|steps| - 1]);
    }
  }

  // ---- Each client stops ---------------------------------------------------

  function StepsLeft(client: Client, maxRetries: nat): int {
    match client
    case Waiting(a) => 2 * (maxRetries - a) + 2
    case Running(a, _, _) => 2 * (maxRetries - a) + 1
    case _ => 0
  }

  function StepsOf(steps: seq<Step>, c: int): nat {
    if steps == [] then 0
    else StepsOf(steps[..|steps| - 1], c) + if steps[|steps| - 1].client == c then 1 else 0
  }

  predicate WithinAttempts(client: Client, maxRetries: nat) {
    client.Waiting? || client.Running? ==> client.attempt <= maxRetries
  }

  ghost predicate Budgeted(calls: Calls, maxRetries: nat, w: World, steps: seq<Step>, c: int) {
    && c in w.clients && WithinAttempts(w.clients[c], maxRetries)
    && StepsOf(steps, c) + StepsLeft(w.clients[c], maxRetries) <= 2 * (maxRetries + 1)
  }

  lemma StepSpends(calls: Calls, maxRetries: nat, w: World, steps: seq<Step>, step: Step, c: int)
    requires Enabled(calls, w, step) && c in calls
    requires Budgeted(calls, maxRetries, w, steps, c)
    ensures Budgeted(calls, maxRetries, Next(calls, maxRetries, w, step), steps + [step], c)
  {
    assert (steps + [step])[..|steps|] == steps;
  }

  /** No client makes more than maxRetries + 1 attempts, however it is scheduled. */
  lemma {:induction false} EveryClientStops(calls: Calls, maxRetries: nat, start: World, steps: seq<Step>, c: int)
    requires Fits(calls, start) && Untried(calls, start) && Legal(calls, maxRetries, start, steps) && c in calls
    ensures Budgeted(calls, maxRetries, After(calls, maxRetries, start, steps), steps, c)
  {
    if steps != [] {
      var front := steps[..|steps| - 1];
      EveryClientStops(calls, maxRetries, start, front, c);
      StepSpends(calls, maxRetries, After(calls, maxRetries, start, front), front, steps[|steps| - 1], c);
      assert steps == front + [steps[|steps| - 1]];
    }
  }

  // ---- The retry bound ------------------------------------------------------

  /** An attempt is aborted only if the key's open row changed under it. */
  ghost predicate OnlyConflictsAbort(calls: Calls, maxRetries: nat, w: World, steps: seq<Step>)
    requires Legal(calls, maxRetries, w, steps)
  {
    steps == []
    || (var front := steps[..|steps| - 1];
        var last := steps[|steps| - 1];
        && OnlyConflictsAbort(calls, maxRetries, w, front)
        && (last.Abort? ==> Conflicted(calls, After(calls, maxRetries, w, front), last.client)))
  }

  /** seen is the open row after the first n transitions of the chain. */
  ghost predicate SeenAfter(c: seq<Transition>, n: nat, seen: Option<int>) {
    n <= |c| && seen == if n == 0 then None else Some(c[n - 1].id)
  }

  /** Every attempt a client lost was lost to a transition of its key committed since. */
  ghost predicate Paid(calls: Calls, start: World, w: World, c: int) {
    && c in calls && c in w.clients
    && PaidFor(w.clients[c], OfKey(w.log, calls[c].key), |OfKey(start.log, calls[c].key)|)
  }

  ghost predicate PaidFor(client: Client, chain: seq<Transition>, base: nat) {
    match client
    case Waiting(a) => base + a <= |chain|
    case Running(a, seen, _) => SeenSince(chain, base + a, seen)
    case _ => true
  }

  /** seen was the open row at some point from the given length of the chain on. */
  ghost predicate SeenSince(chain: seq<Transition>, from: nat, seen: Option<int>) {
    exists n :: from <= n && SeenAfter(chain, n, seen)
  }

  lemma SeenGrows(c: seq<Transition>, p: Transition, n: nat, seen: Option<int>)
    requires SeenAfter(c, n, seen)
    ensures SeenAfter(c + [p], n, seen)
  {}

  lemma SeenSinceGrows(c: seq<Transition>, p: Transition, from: nat, seen: Option<int>)
    requires SeenSince(c, from, seen)
    ensures SeenSince(c + [p], from, seen)
  {
    var n :| from <= n && SeenAfter(c, n, seen);
    SeenGrows(c, p, n, seen);
  }

  lemma PaidForGrows(client: Client, c: seq<Transition>, p: Transition, base: nat)
    requires PaidFor(client, c, base)
    ensures PaidFor(client, c + [p], base)
  {
    if client.Running? { SeenSinceGrows(c, p, base + client.attempt, client.seen); }
  }

  lemma OthersStayPaid(calls: Calls, start: World, w: World, step: Step, maxRetries: nat, c: int)
    requires Enabled(calls, w, step) && c in calls && step.client != c
    requires Paid(calls, start, w, c)
    ensures Paid(calls, start, Next(calls, maxRetries, w, step), c)
  {
    var key := calls[c].key;
    if w.clients[step.client].Running? {
      var p := Stamped(calls[step.client], w.clients[step.client].now);
      OfKeyAppend(w.log, p, key);
      PaidForGrows(w.clients[c], OfKey(w.log, key), p, |OfKey(start.log, key)|);
    }
  }

  /** A client that lost an attempt sees a longer chain at the next one. */
  lemma ConflictMeansNewLink(chain: seq<Transition>, from: nat, seen: Option<int>)
    requires SeenSince(chain, from, seen)
    requires seen != if chain == [] then None else Some(chain[|chain| - 1].id)
    ensures from < |chain|
  {
    var n :| from <= n && SeenAfter(chain, n, seen);
  }

  /** The same for the client that steps; a lost attempt is paid for at once. */
  lemma MineStaysPaid(calls: Calls, start: World, w: World, step: Step, maxRetries: nat)
    requires Enabled(calls, w, step) && Paid(calls, start, w, step.client)
    requires var chain := OfKey(w.log, calls[step.client].key);
             OpenRow(w.facts, calls[step.client].key) == if chain == [] then None else Some(chain[|chain| - 1].id)
    requires step.Abort? ==> Conflicted(calls, w, step.client)
    ensures Paid(calls, start, Next(calls, maxRetries, w, step), step.client)
    ensures step.Abort? ==> LostAttempts(calls, start, w, step.client) < |OfKey(w.log, calls[step.client].key)|
  {
    var c := step.client;
    var chain := OfKey(w.log, calls[c].key);
    match step
    case Begin(_, _) => assert SeenAfter(chain, |chain|, OpenRow(w.facts, calls[c].key));
    case Finish(_) =>
    case Abort(_) => ConflictMeansNewLink(chain, |OfKey(start.log, calls[c].key)| + w.clients[c].attempt, w.clients[c].seen);
  }

  /** The length the key's chain had at the start, and one link for each attempt lost so far. */
  ghost function LostAttempts(calls: Calls, start: World, w: World, c: int): int
    requires c in calls && c in w.clients
  {
    |OfKey(start.log, calls[c].key)| + if w.clients[c].Running? then w.clients[c].attempt else 0
  }

  ghost function Callers(calls: Calls, key: FactKey): set<int> {
    set c | c in calls && calls[c].key == key
  }

  /** At most maxRetries + 1 clients write one key. */
  ghost predicate FewCallers(calls: Calls, maxRetries: nat) {
    forall c :: c in calls ==> |Callers(calls, calls[c].key)| <= maxRetries + 1
  }

  ghost predicate RetriesCovered(calls: Calls, start: World, w: World) {
    forall c :: c in calls ==> Covered(calls, start, w, c)
  }

  ghost predicate Covered(calls: Calls, start: World, w: World, c: int) {
    Paid(calls, start, w, c) && !w.clients[c].Exhausted?
  }

  lemma OthersAreFew(calls: Calls, maxRetries: nat, w: World, c: int)
    requires Fits(calls, w) && FewCallers(calls, maxRetries)
    requires c in calls && !w.clients[c].Done?
    ensures |FinishedOn(calls, w, calls[c].key)| <= maxRetries
  {
    var all := Callers(calls, calls[c].key);
    var done := FinishedOn(calls, w, calls[c].key);
    assert done <= all - {c};
    SubsetIsSmaller(done, all - {c});
  }

  lemma OpenOfKey(facts: Facts, log: seq<Transition>, key: FactKey)
    requires Chains(facts, log)
    ensures var c := OfKey(log, key); OpenRow(facts, key) == if c == [] then None else Some(c[|c| - 1].id)
  {
    OpenIsLast(facts, log, key);
  }

  /** A client that loses an attempt still has one left. */
  lemma AttemptsLeft(calls: Calls, maxRetries: nat, start: World, w: World, c: int)
    requires Fits(calls, w) && FewCallers(calls, maxRetries) && OneLinkPerSuccess(calls, start, w)
    requires c in calls && w.clients[c].Running?
    requires LostAttempts(calls, start, w, c) < |OfKey(w.log, calls[c].key)|
    ensures w.clients[c].attempt < maxRetries
  {
    OthersAreFew(calls, maxRetries, w, c);
    LinksOf(calls, start, w, calls[c].key);
  }

  lemma MineStaysCovered(calls: Calls, maxRetries: nat, start: World, w: World, step: Step)
    requires Safe(calls, start, w) && Enabled(calls, w, step) && FewCallers(calls, maxRetries)
    requires Covered(calls, start, w, step.client)
    requires step.Abort? ==> Conflicted(calls, w, step.client)
    ensures Covered(calls, start, Next(calls, maxRetries, w, step), step.client)
  {
    MinePaysOn(calls, maxRetries, start, w, step);
    if step.Abort? { AttemptsLeft(calls, maxRetries, start, w, step.client); }
    StaysUnexhausted(calls, maxRetries, w, step);
  }

  lemma MinePaysOn(calls: Calls, maxRetries: nat, start: World, w: World, step: Step)
    requires Chains(w.facts, w.log) && Enabled(calls, w, step) && Paid(calls, start, w, step.client)
    requires step.Abort? ==> Conflicted(calls, w, step.client)
    ensures Paid(calls, start, Next(calls, maxRetries, w, step), step.client)
    ensures step.Abort? ==> LostAttempts(calls, start, w, step.client) < |OfKey(w.log, calls[step.client].key)|
  {
    OpenOfKey(w.facts, w.log, calls[step.client].key);
    MineStaysPaid(calls, start, w, step, maxRetries);
  }

  lemma StaysUnexhausted(calls: Calls, maxRetries: nat, w: World, step: Step)
    requires Enabled(calls, w, step)
    requires step.Abort? ==> w.clients[step.client].attempt < maxRetries
    ensures !Next(calls, maxRetries, w, step).clients[step.client].Exhausted?
  {}

  lemma LinksOf(calls: Calls, start: World, w: World, key: FactKey)
    requires OneLinkPerSuccess(calls, start, w)
    ensures |OfKey(w.log, key)| == |OfKey(start.log, key)| + |FinishedOn(calls, w, key)|
  {}

  lemma OthersStayCovered(calls: Calls, maxRetries: nat, start: World, w: World, step: Step, c: int)
    requires Enabled(calls, w, step) && step.client != c
    requires Covered(calls, start, w, c)
    ensures Covered(calls, start, Next(calls, maxRetries, w, step), c)
  {
    OthersStayPaid(calls, start, w, step, maxRetries, c);
  }

  lemma StepStaysCovered(calls: Calls, maxRetries: nat, start: World, w: World, step: Step)
    requires Safe(calls, start, w) && Enabled(calls, w, step) && FewCallers(calls, maxRetries)
    requires RetriesCovered(calls, start, w)
    requires step.Abort? ==> Conflicted(calls, w, step.client)
    ensures RetriesCovered(calls, start, Next(calls, maxRetries, w, step))
  {
    forall c | c in calls ensures Covered(calls, start, Next(calls, maxRetries, w, step), c) {
      if c == step.client {
        MineStaysCovered(calls, maxRetries, start, w, step);
      } else {
        OthersStayCovered(calls, maxRetries, start, w, step, c);
      }
    }
  }

  lemma StartIsCovered(calls: Calls, start: World)
    requires Fits(calls, start) && Untried(calls, start)
    ensures RetriesCovered(calls, start, start)
  {}

  /** The retry bound: while only conflicts abort, and at most maxRetries + 1 clients write a
      key, no client runs out of attempts. */
  lemma {:induction false} RetriesSuffice(calls: Calls, maxRetries: nat, start: World, steps: seq<Step>)
    requires Starting(calls, start) && FewCallers(calls, maxRetries)
    requires Legal(calls, maxRetries, start, steps) && OnlyConflictsAbort(calls, maxRetries, start, steps)
    ensures RetriesCovered(calls, start, After(calls, maxRetries, start, steps))
  {
    if steps == [] {
      StartIsCovered(calls, start);
    } else {
      var front := steps[..|steps| - 1];
      EveryInterleavingIsSafe(calls, maxRetries, start, front);
      RetriesSuffice(calls, maxRetries, start, front);
      StepStaysCovered(calls, maxRetries, start, After(calls, maxRetries, start, front), steps[|steps| - 1]);
    }
  }

  // ---- System time -----------------------------------------------------------

  /** A new attempt's now() is later than that of every committed row of its key. */
  ghost predicate Ticks(calls: Calls, w: World, step: Step) {
    step.Begin? && step.client in calls ==>
      forall i :: 0 <= i < |OfKey(w.log, calls[step.client].key)| ==>
        OfKey(w.log, calls[step.client].key)[i].recordedAt < step.now
  }

  /** The clock never falls behind what has been committed. */
  ghost predicate ClockRises(calls: Calls, maxRetries: nat, w: World, steps: seq<Step>)
    requires Legal(calls, maxRetries, w, steps)
  {
    steps == []
    || (var front := steps[..|steps| - 1];
        && ClockRises(calls, maxRetries, w, front)
        && Ticks(calls, After(calls, maxRetries, w, front), steps[|steps| - 1]))
  }

  /** seen was the open row after n links, all of them recorded before now. */
  ghost predicate DrawnAfter(chain: seq<Transition>, n: nat, seen: Option<int>, now: int) {
    SeenAfter(chain, n, seen) && forall i :: 0 <= i < n ==> chain[i].recordedAt < now
  }

  ghost predicate Drawn(chain: seq<Transition>, client: Client) {
    client.Running? ==> exists n: nat :: DrawnAfter(chain, n, client.seen, client.now)
  }

  ghost predicate RisingLog(log: seq<Transition>) {
    forall key :: RecordedRises(OfKey(log, key))
  }

  ghost predicate Timed(calls: Calls, w: World)
    requires Fits(calls, w)
  {
    && (forall c :: c in calls ==> Drawn(OfKey(w.log, calls[c].key), w.clients[c]))
    && RisingLog(w.log)
  }

  lemma DrawnGrows(chain: seq<Transition>, p: Transition, client: Client)
    requires Drawn(chain, client)
    ensures Drawn(chain + [p], client)
  {
    if client.Running? {
      var n: nat :| DrawnAfter(chain, n, client.seen, client.now);
      SeenGrows(chain, p, n, client.seen);
      assert DrawnAfter(chain + [p], n, client.seen, client.now);
    }
  }

  lemma OnlyTheLastHasItsId(facts: Facts, key: FactKey, chain: seq<Transition>, i: nat)
    requires Chain(facts, key, chain) && i < |chain|
    ensures chain[i].id == chain[|chain| - 1].id ==> i == |chain| - 1
  {}

  /** An attempt that commits drew its now() after every link of the chain it extends. */
  lemma CommitIsLatest(facts: Facts, log: seq<Transition>, key: FactKey, client: Client)
    requires Chains(facts, log) && client.Running? && Drawn(OfKey(log, key), client)
    requires OpenRow(facts, key) == client.seen
    ensures forall i :: 0 <= i < |OfKey(log, key)| ==> OfKey(log, key)[i].recordedAt < client.now
  {
    var chain := OfKey(log, key);
    OpenOfKey(facts, log, key);
    assert Chain(facts, key, chain);
    var n: nat :| DrawnAfter(chain, n, client.seen, client.now);
    if n > 0 { OnlyTheLastHasItsId(facts, key, chain, n - 1); }
  }

  lemma StepStaysTimed(calls: Calls, maxRetries: nat, w: World, step: Step)
    requires Enabled(calls, w, step) && Chains(w.facts, w.log)
    requires Timed(calls, w) && Ticks(calls, w, step)
    ensures Fits(calls, Next(calls, maxRetries, w, step)) && Timed(calls, Next(calls, maxRetries, w, step))
  {
    var t := Next(calls, maxRetries, w, step);
    var me := step.client;
    if t.log != w.log {
      CommitStaysTimed(calls, w, t, me);
    } else {
      if step.Begin? { BeginIsDrawn(calls, w, me, step.now); }
      IdleStaysTimed(calls, w, t, me);
    }
  }

  lemma IdleStaysTimed(calls: Calls, w: World, t: World, me: int)
    requires Fits(calls, w) && Timed(calls, w) && me in calls
    requires Becomes(w, me, t) && t.log == w.log && Drawn(OfKey(w.log, calls[me].key), t.clients[me])
    ensures Fits(calls, t) && Timed(calls, t)
  {
    forall c | c in calls ensures Drawn(OfKey(t.log, calls[c].key), t.clients[c]) {
      assert Drawn(OfKey(w.log, calls[c].key), w.clients[c]);
    }
  }

  lemma BeginIsDrawn(calls: Calls, w: World, c: int, now: int)
    requires c in calls && Chains(w.facts, w.log) && Ticks(calls, w, Begin(c, now))
    ensures forall attempt :: Drawn(OfKey(w.log, calls[c].key), Running(attempt, OpenRow(w.facts, calls[c].key), now))
  {
    var chain := OfKey(w.log, calls[c].key);
    OpenOfKey(w.facts, w.log, calls[c].key);
    assert DrawnAfter(chain, |chain|, OpenRow(w.facts, calls[c].key), now);
  }

  lemma CommitStaysTimed(calls: Calls, w: World, t: World, me: int)
    requires Fits(calls, w) && Chains(w.facts, w.log) && Timed(calls, w)
    requires me in calls && w.clients[me].Running? && !Conflicted(calls, w, me)
    requires Becomes(w, me, t) && t.clients[me].Done?
    requires t.log == w.log + [Stamped(calls[me], w.clients[me].now)]
    ensures Fits(calls, t) && Timed(calls, t)
  {
    var p := Stamped(calls[me], w.clients[me].now);
    CommitIsLatest(w.facts, w.log, p.key, w.clients[me]);
    CommitsRise(w.log, p);
    forall c | c in calls ensures Drawn(OfKey(t.log, calls[c].key), t.clients[c]) {
      DrawnInLog(w.log, p, calls[c].key, w.clients[c]);
    }
  }

  lemma DrawnInLog(log: seq<Transition>, p: Transition, key: FactKey, client: Client)
    requires Drawn(OfKey(log, key), client)
    ensures Drawn(OfKey(log + [p], key), client)
  {
    OfKeyAppend(log, p, key);
    DrawnGrows(OfKey(log, key), p, client);
  }

  lemma CommitsRise(log: seq<Transition>, p: Transition)
    requires RisingLog(log)
    requires forall i :: 0 <= i < |OfKey(log, p.key)| ==> OfKey(log, p.key)[i].recordedAt < p.recordedAt
    ensures RisingLog(log + [p])
  {
    forall key ensures RecordedRises(OfKey(log + [p], key)) {
      OfKeyAppend(log, p, key);
      assert RecordedRises(OfKey(log, key));
    }
  }

  lemma {:induction false} RunStaysTimed(calls: Calls, maxRetries: nat, start: World, steps: seq<Step>)
    requires Starting(calls, start) && RisingLog(start.log)
    requires Legal(calls, maxRetries, start, steps) && ClockRises(calls, maxRetries, start, steps)
    ensures var w := After(calls, maxRetries, start, steps); Fits(calls, w) && Timed(calls, w)
  {
    if steps != [] {
      var front := steps[..|steps| - 1];
      EveryInterleavingIsSafe(calls, maxRetries, start, front);
      RunStaysTimed(calls, maxRetries, start, front);
      StepStaysTimed(calls, maxRetries, After(calls, maxRetries, start, front), steps[|steps| - 1]);
    }
  }

  /** A conflicted attempt never commits, so the now() values of a chain rise with it, in any
      interleaving: with a clock that does not fall behind the committed rows, the history
      query of every key answers its whole chain in order. */
  lemma HistoriesStayFaithful(calls: Calls, maxRetries: nat, start: World, steps: seq<Step>, key: FactKey)
    requires Starting(calls, start) && RisingLog(start.log)
    requires Legal(calls, maxRetries, start, steps) && ClockRises(calls, maxRetries, start, steps)
    ensures var w := After(calls, maxRetries, start, steps);
            RecordedRises(OfKey(w.log, key)) && HistoryFaithful(w.facts, key, OfKey(w.log, key))
  {
    var w := After(calls, maxRetries, start, steps);
    EveryInterleavingIsSafe(calls, maxRetries, start, steps);
    RunStaysTimed(calls, maxRetries, start, steps);
    HistoryIsTheLogIff(w.facts, w.log, key);
  }

  // ---- Which calls succeed ---------------------------------------------------

  /** The key already has a fact that starts at the call's instant or later. */
  ghost predicate Overtaken(log: seq<Transition>, p: Call) {
    exists i :: 0 <= i < |log| && log[i].key == p.key && p.at <= log[i].at
  }

  lemma {:induction false} OfKeyMembers(log: seq<Transition>, key: FactKey)
    ensures forall t :: t in OfKey(log, key) <==> t in log && t.key == key
  {
    if log != [] {
      OfKeyMembers(log[..|log| - 1], key);
      assert log == log[..|log| - 1] + [log[|log| - 1]];
    }
  }

  ghost predicate OvertakenIn(c: seq<Transition>, at: int) {
    exists j :: 0 <= j < |c| && at <= c[j].at
  }

  lemma OvertakenInChain(log: seq<Transition>, p: Call)
    ensures Overtaken(log, p) <==> OvertakenIn(OfKey(log, p.key), p.at)
  {
    var c := OfKey(log, p.key);
    OfKeyMembers(log, p.key);
    if Overtaken(log, p) {
      var i :| 0 <= i < |log| && log[i].key == p.key && p.at <= log[i].at;
      assert log[i] in c;
    }
    if OvertakenIn(c, p.at) {
      var j :| 0 <= j < |c| && p.at <= c[j].at;
      assert c[j] in log;
    }
  }

  lemma OvertakenByTheLast(facts: Facts, key: FactKey, c: seq<Transition>, at: int)
    requires Chain(facts, key, c)
    ensures OvertakenIn(c, at) <==> c != [] && at <= c[|c| - 1].at
  {
    forall j | 0 <= j < |c| ensures c[j].at <= c[|c| - 1].at {}
  }

  lemma OvertakenIffRefused(facts: Facts, log: seq<Transition>, p: Call)
    requires Chains(facts, log)
    ensures Overtaken(log, p) <==> !CloseAllowed(facts, p.key, p.at)
  {
    AcceptedIff(facts, log, Stamped(p, 0));
    assert Chain(facts, p.key, OfKey(log, p.key));
    OvertakenInChain(log, p);
    OvertakenByTheLast(facts, p.key, OfKey(log, p.key), p.at);
  }

  /** A call that finished was not late, and one that was rejected was. */
  ghost predicate VerdictsHold(calls: Calls, w: World)
    requires Fits(calls, w)
  {
    forall c :: c in calls && w.clients[c].Rejected? ==> Overtaken(w.log, calls[c])
  }

  lemma OvertakenStays(log: seq<Transition>, more: seq<Transition>, p: Call)
    requires Overtaken(log, p) && log <= more
    ensures Overtaken(more, p)
  {
    var i :| 0 <= i < |log| && log[i].key == p.key && p.at <= log[i].at;
    assert more[i] == log[i];
  }

  lemma StepKeepsVerdicts(calls: Calls, maxRetries: nat, w: World, step: Step)
    requires Enabled(calls, w, step) && Chains(w.facts, w.log) && VerdictsHold(calls, w)
    ensures var t := Next(calls, maxRetries, w, step);
            Fits(calls, t) && VerdictsHold(calls, t)
    ensures Overtaken(w.log, calls[step.client]) ==> !Next(calls, maxRetries, w, step).clients[step.client].Done?
  {
    var t := Next(calls, maxRetries, w, step);
    OvertakenIffRefused(w.facts, w.log, calls[step.client]);
    forall c | c in calls && t.clients[c].Rejected? ensures Overtaken(t.log, calls[c]) {
      if c != step.client { OvertakenStays(w.log, t.log, calls[c]); }
    }
  }

  lemma {:induction false} RejectedWasOvertaken(calls: Calls, maxRetries: nat, start: World, steps: seq<Step>)
    requires Starting(calls, start) && Legal(calls, maxRetries, start, steps)
    ensures Fits(calls, After(calls, maxRetries, start, steps))
    ensures VerdictsHold(calls, After(calls, maxRetries, start, steps))
  {
    if steps != [] {
      var front := steps[..|steps| - 1];
      EveryInterleavingIsSafe(calls, maxRetries, start, front);
      RejectedWasOvertaken(calls, maxRetries, start, front);
      StepKeepsVerdicts(calls, maxRetries, After(calls, maxRetries, start, front), steps[|steps| - 1]);
    }
  }

  /** The call has not succeeded and its instant has been overtaken. */
  ghost predicate Doomed(calls: Calls, w: World, c: int) {
    && c in calls && c in w.clients
    && Overtaken(w.log, calls[c]) && !w.clients[c].Done?
  }

  /** Retrying cannot save a call whose fixed instant has been overtaken: in no continuation
      does it ever succeed. */
  lemma {:induction false} OvertakenNeverSucceeds(calls: Calls, maxRetries: nat, start: World, steps: seq<Step>, n: nat, c: int)
    requires Starting(calls, start) && n <= |steps|
    requires Legal(calls, maxRetries, start, steps) && Legal(calls, maxRetries, start, steps[..n])
    requires Doomed(calls, After(calls, maxRetries, start, steps[..n]), c)
    ensures Doomed(calls, After(calls, maxRetries, start, steps), c)
    decreases |steps|
  {
    if n == |steps| {
      assert steps[..n] == steps;
    } else {
      var front := steps[..|steps| - 1];
      assert front[..n] == steps[..n];
      OvertakenNeverSucceeds(calls, maxRetries, start, front, n, c);
      DoomedLastStep(calls, maxRetries, start, steps, c);
    }
  }

  lemma DoomedLastStep(calls: Calls, maxRetries: nat, start: World, all: seq<Step>, c: int)
    requires Starting(calls, start) && Legal(calls, maxRetries, start, all) && all != []
    requires Doomed(calls, After(calls, maxRetries, start, all[..|all| - 1]), c)
    ensures Doomed(calls, After(calls, maxRetries, start, all), c)
  {
    EveryInterleavingIsSafe(calls, maxRetries, start, all[..|all| - 1]);
    DoomedStep(calls, maxRetries, After(calls, maxRetries, start, all[..|all| - 1]), all[|all| - 1], c);
  }

  lemma DoomedStep(calls: Calls, maxRetries: nat, w: World, step: Step, c: int)
    requires Enabled(calls, w, step) && Chains(w.facts, w.log) && Doomed(calls, w, c)
    ensures Doomed(calls, Next(calls, maxRetries, w, step), c)
  {
    var t := Next(calls, maxRetries, w, step);
    OvertakenStays(w.log, t.log, calls[c]);
    OvertakenIffRefused(w.facts, w.log, calls[c]);
  }

  ghost predicate Settled(w: World) {
    forall c :: c in w.clients ==> !w.clients[c].Waiting? && !w.clients[c].Running?
  }

  /** When all clients have stopped, each succeeded or was overtaken; a call later than every
      rival instant of its key, old or new, always succeeds. */
  lemma SettledMeansDecided(calls: Calls, maxRetries: nat, start: World, steps: seq<Step>, c: int)
    requires Starting(calls, start) && FewCallers(calls, maxRetries) && c in calls
    requires Legal(calls, maxRetries, start, steps) && OnlyConflictsAbort(calls, maxRetries, start, steps)
    requires Settled(After(calls, maxRetries, start, steps))
    ensures var w := After(calls, maxRetries, start, steps);
            && c in w.clients
            && (w.clients[c].Done? || (w.clients[c].Rejected? && Overtaken(w.log, calls[c])))
            && ((!Overtaken(start.log, calls[c]) && LatestOf(calls, c)) ==> w.clients[c].Done?)
  {
    var w := After(calls, maxRetries, start, steps);
    RetriesSuffice(calls, maxRetries, start, steps);
    assert Covered(calls, start, w, c);
    RejectedWasOvertaken(calls, maxRetries, start, steps);
    EveryInterleavingIsSafe(calls, maxRetries, start, steps);
    if w.clients[c].Rejected? && LatestOf(calls, c) {
      OvertakenBySomeone(calls, start, w, c);
    }
  }

  ghost predicate LatestOf(calls: Calls, c: int)
    requires c in calls
  {
    forall d :: d in calls && d != c && calls[d].key == calls[c].key ==> calls[d].at < calls[c].at
  }

  lemma OvertakenBySomeone(calls: Calls, start: World, w: World, c: int)
    requires c in calls && LatestOf(calls, c) && c in w.clients && !w.clients[c].Done?
    requires LogHoldsSuccesses(calls, start, w) && Overtaken(w.log, calls[c])
    ensures Overtaken(start.log, calls[c])
  {
    var i :| 0 <= i < |w.log| && w.log[i].key == calls[c].key && calls[c].at <= w.log[i].at;
    assert w.log[i] in w.log;
    assert !CallOfDone(calls, w, w.log[i]);
    var j :| 0 <= j < |start.log| && start.log[j] == w.log[i];
  }

  // ---- When a call is sure to succeed -----------------------------------------

  /** A step that only a conflict can abort, by a clock that does not fall behind. */
  ghost predicate Fair(calls: Calls, w: World, step: Step) {
    Enabled(calls, w, step) && (step.Abort? ==> Conflicted(calls, w, step.client)) && Ticks(calls, w, step)
  }

  /** A run of such steps, ending in w. */
  ghost predicate Leads(calls: Calls, maxRetries: nat, start: World, steps: seq<Step>, w: World) {
    && Legal(calls, maxRetries, start, steps)
    && OnlyConflictsAbort(calls, maxRetries, start, steps)
    && ClockRises(calls, maxRetries, start, steps)
    && After(calls, maxRetries, start, steps) == w
  }

  lemma LeadsOn(calls: Calls, maxRetries: nat, start: World, steps: seq<Step>, w: World, step: Step, t: World)
    requires Leads(calls, maxRetries, start, steps, w)
    requires Fair(calls, w, step) && Next(calls, maxRetries, w, step) == t
    ensures Leads(calls, maxRetries, start, steps + [step], t)
  {
    assert (steps + [step])[..|steps|] == steps;
  }

  /** An instant after every recorded one. */
  function Later(log: seq<Transition>): (now: int)
    ensures forall i :: 0 <= i < |log| ==> log[i].recordedAt < now
  {
    if log == [] then 0
    else
      var last := log[|log| - 1].recordedAt;
      var rest := Later(log[..|log| - 1]);
      if last < rest then rest else last + 1
  }

  ghost predicate Stopped(client: Client) { !client.Waiting? && !client.Running? }

  /** An attempt that nobody disturbs: it commits exactly when its instant is not overtaken. */
  lemma RunAlone(calls: Calls, maxRetries: nat, start: World, steps: seq<Step>, w: World, c: int)
    returns (more: seq<Step>, t: World)
    requires Leads(calls, maxRetries, start, steps, w) && Fits(calls, w)
    requires c in calls && w.clients[c].Waiting?
    ensures Leads(calls, maxRetries, start, more, t) && Fits(calls, t) && Becomes(w, c, t)
    ensures if CloseAllowed(w.facts, calls[c].key, calls[c].at)
            then t.clients[c].Done? && exists now :: t.log == w.log + [Stamped(calls[c], now)]
            else t.clients[c].Rejected? && t.log == w.log
  {
    var begin := Begin(c, Later(OfKey(w.log, calls[c].key)));
    var u := Next(calls, maxRetries, w, begin);
    LeadsOn(calls, maxRetries, start, steps, w, begin, u);
    t := Next(calls, maxRetries, u, Finish(c));
    LeadsOn(calls, maxRetries, start, steps + [begin], u, Finish(c), t);
    more := steps + [begin] + [Finish(c)];
    assert CloseAllowed(w.facts, calls[c].key, calls[c].at) ==> t.log == w.log + [Stamped(calls[c], begin.now)];
  }

  /** A running attempt ends: by its commit or refusal, or by the abort it is due. */
  lemma EndAttempt(calls: Calls, maxRetries: nat, start: World, steps: seq<Step>, w: World, c: int)
    returns (more: seq<Step>, t: World)
    requires Leads(calls, maxRetries, start, steps, w) && Fits(calls, w)
    requires c in calls && w.clients[c].Running?
    ensures Leads(calls, maxRetries, start, more, t) && Fits(calls, t)
    ensures Becomes(w, c, t) && !t.clients[c].Running?
  {
    var step := if Conflicted(calls, w, c) then Abort(c) else Finish(c);
    t := Next(calls, maxRetries, w, step);
    LeadsOn(calls, maxRetries, start, steps, w, step, t);
    more := steps + [step];
  }

  /** Any client can be brought to a stop by its own steps alone. */
  lemma StopOne(calls: Calls, maxRetries: nat, start: World, steps: seq<Step>, w: World, c: int)
    returns (more: seq<Step>, t: World)
    requires Leads(calls, maxRetries, start, steps, w) && Fits(calls, w) && c in calls
    ensures Leads(calls, maxRetries, start, more, t) && Fits(calls, t)
    ensures Becomes(w, c, t) && Stopped(t.clients[c])
  {
    more, t := steps, w;
    if w.clients[c].Running? {
      more, t := EndAttempt(calls, maxRetries, start, steps, w, c);
    }
    if t.clients[c].Waiting? {
      var u := t;
      more, t := RunAlone(calls, maxRetries, start, more, u, c);
      BecomesTwice(w, u, t, c);
    }
  }

  lemma BecomesTwice(w: World, u: World, t: World, c: int)
    requires (u.clients == w.clients || Becomes(w, c, u)) && Becomes(u, c, t)
    ensures Becomes(w, c, t)
  {}

  ghost function Unstopped(w: World): set<int> {
    set c | c in w.clients && !Stopped(w.clients[c])
  }

  lemma AnyOf<T>(s: set<T>) returns (x: T)
    requires s != {}
    ensures x in s
  {
    x :| x in s;
  }

  /** Every run can be completed, and what has stopped stays as it is. */
  lemma {:induction false} StopAll(calls: Calls, maxRetries: nat, start: World, steps: seq<Step>, w: World)
    returns (more: seq<Step>, t: World)
    requires Leads(calls, maxRetries, start, steps, w) && Fits(calls, w)
    ensures Leads(calls, maxRetries, start, more, t) && Fits(calls, t) && Settled(t)
    ensures forall c :: c in calls && Stopped(w.clients[c]) ==> t.clients[c] == w.clients[c]
    decreases |Unstopped(w)|
  {
    if Unstopped(w) == {} {
      assert forall c :: c in w.clients ==> c !in Unstopped(w);
      more, t := steps, w;
    } else {
      var c := AnyOf(Unstopped(w));
      var middle, u := StopOne(calls, maxRetries, start, steps, w, c);
      assert Unstopped(u) == Unstopped(w) - {c};
      more, t := StopAll(calls, maxRetries, start, middle, u);
    }
  }

  /** A call that is overtaken at the start, or has a rival of the same instant or a later
      one, is rejected in some completed run: the rival goes first. */
  lemma SpoiledRun(calls: Calls, maxRetries: nat, start: World, c: int)
    returns (steps: seq<Step>, w: World)
    requires Starting(calls, start) && c in calls
    requires Overtaken(start.log, calls[c]) || !LatestOf(calls, c)
    ensures Leads(calls, maxRetries, start, steps, w) && Settled(w)
    ensures c in w.clients && w.clients[c].Rejected?
  {
    var late, u := OvertakingRun(calls, maxRetries, start, c);
    var lost, v := LosingRun(calls, maxRetries, start, late, u, c);
    steps, w := StopAll(calls, maxRetries, start, lost, v);
  }

  lemma LosingRun(calls: Calls, maxRetries: nat, start: World, steps: seq<Step>, w: World, c: int)
    returns (more: seq<Step>, t: World)
    requires Starting(calls, start) && Leads(calls, maxRetries, start, steps, w) && Fits(calls, w)
    requires c in calls && w.clients[c].Waiting? && Overtaken(w.log, calls[c])
    ensures Leads(calls, maxRetries, start, more, t) && Fits(calls, t) && t.clients[c].Rejected?
  {
    EveryInterleavingIsSafe(calls, maxRetries, start, steps);
    OvertakenIffRefused(w.facts, w.log, calls[c]);
    more, t := RunAlone(calls, maxRetries, start, steps, w, c);
  }

  lemma OvertakingRun(calls: Calls, maxRetries: nat, start: World, c: int)
    returns (steps: seq<Step>, w: World)
    requires Starting(calls, start) && c in calls
    requires Overtaken(start.log, calls[c]) || !LatestOf(calls, c)
    ensures Leads(calls, maxRetries, start, steps, w) && Fits(calls, w)
    ensures Overtaken(w.log, calls[c]) && w.clients[c].Waiting?
  {
    steps, w := [], start;
    if !Overtaken(start.log, calls[c]) {
      var d :| d in calls && d != c && calls[d].key == calls[c].key && calls[c].at <= calls[d].at;
      OvertakenIffRefused(start.facts, start.log, calls[d]);
      assert !Overtaken(start.log, calls[d]) by { RivalOvertakes(start.log, calls[d], calls[c]); }
      steps, w := RunAlone(calls, maxRetries, start, [], start, d);
      assert w.log[|w.log| - 1].at == calls[d].at;
    }
  }

  lemma RivalOvertakes(log: seq<Transition>, rival: Call, mine: Call)
    requires rival.key == mine.key && mine.at <= rival.at
    ensures Overtaken(log, rival) ==> Overtaken(log, mine)
  {}

  /** In every completed run, however the clients are scheduled, the call succeeds. */
  ghost predicate SureToSucceed(calls: Calls, maxRetries: nat, start: World, c: int) {
    forall steps, w :: Leads(calls, maxRetries, start, steps, w) && Settled(w) ==> c in w.clients && w.clients[c].Done?
  }

  /** A caller can tell beforehand: with few enough writers a call is sure to succeed if and
      only if its instant is later than every fact of the key and every rival's instant. */
  lemma SureToSucceedIff(calls: Calls, maxRetries: nat, start: World, c: int)
    requires Starting(calls, start) && FewCallers(calls, maxRetries) && c in calls
    ensures SureToSucceed(calls, maxRetries, start, c) <==> !Overtaken(start.log, calls[c]) && LatestOf(calls, c)
  {
    if !Overtaken(start.log, calls[c]) && LatestOf(calls, c) {
      forall steps, w | Leads(calls, maxRetries, start, steps, w) && Settled(w)
        ensures c in w.clients && w.clients[c].Done?
      {
        SettledMeansDecided(calls, maxRetries, start, steps, c);
      }
    } else {
      var steps, w := SpoiledRun(calls, maxRetries, start, c);
      assert Leads(calls, maxRetries, start, steps, w) && Settled(w);
    }
  }

  // ---- The failing run ---------------------------------------------------------

  function Early(key: FactKey): Call { Call(11, key, "early", 1) }
  function Late(key: FactKey): Call { Call(12, key, "late", 2) }
  function Rivals(key: FactKey): Calls { map[1 := Early(key), 2 := Late(key)] }
  function LateRow(key: FactKey): Facts { map[12 := Fact(key, "late", 2, None, 6, None)] }

  /** The table before and after the later of two rivals committed. */
  function Before(one: Client, two: Client): World { World(map[], [], map[1 := one, 2 := two]) }
  function Afterwards(key: FactKey, one: Client): World {
    World(LateRow(key), [Stamped(Late(key), 6)], map[1 := one, 2 := Done(None)])
  }

  lemma LateCommits(key: FactKey, maxRetries: nat)
    ensures var w := Before(Running(0, None, 5), Running(0, None, 6));
            && Enabled(Rivals(key), w, Finish(2))
            && Next(Rivals(key), maxRetries, w, Finish(2)) == Afterwards(key, Running(0, None, 5))
  {
    var w := Before(Running(0, None, 5), Running(0, None, 6));
    assert OpenRow(w.facts, key) == None;
    assert CloseAllowed(w.facts, key, 2);
    assert Transitioned(w.facts, Stamped(Late(key), 6)) == LateRow(key);
    assert w.clients[2 := Done(None)] == map[1 := Running(0, None, 5), 2 := Done(None)];
  }

  lemma LateRowIsOpen(key: FactKey)
    ensures OpenRow(LateRow(key), key) == Some(12) && !CloseAllowed(LateRow(key), key, 1)
  {
    assert 12 in LateRow(key) && OpenFor(LateRow(key)[12], key);
    OpenRowIs(LateRow(key), key, 12);
  }

  lemma EarlyIsAborted(key: FactKey, maxRetries: nat)
    requires maxRetries > 0
    ensures var w := Afterwards(key, Running(0, None, 5));
            && Enabled(Rivals(key), w, Abort(1)) && Conflicted(Rivals(key), w, 1)
            && Next(Rivals(key), maxRetries, w, Abort(1)) == Afterwards(key, Waiting(1))
  {
    LateRowIsOpen(key);
    var w := Afterwards(key, Running(0, None, 5));
    assert w.clients[1 := Waiting(1)] == map[1 := Waiting(1), 2 := Done(None)];
  }

  lemma EarlyIsRejected(key: FactKey, maxRetries: nat)
    ensures var w := Afterwards(key, Waiting(1));
            var u := Afterwards(key, Running(1, Some(12), 7));
            && Enabled(Rivals(key), w, Begin(1, 7)) && Next(Rivals(key), maxRetries, w, Begin(1, 7)) == u
            && Enabled(Rivals(key), u, Finish(1))
            && Next(Rivals(key), maxRetries, u, Finish(1)) == Afterwards(key, Rejected)
  {
    LateRowIsOpen(key);
    var w := Afterwards(key, Waiting(1));
    var u := Afterwards(key, Running(1, Some(12), 7));
    assert w.clients[1 := Running(1, Some(12), 7)] == u.clients;
    assert u.clients[1 := Rejected] == map[1 := Rejected, 2 := Done(None)];
  }

  lemma BothBegin(key: FactKey, maxRetries: nat)
    ensures var w := Before(Waiting(0), Waiting(0));
            var u := Before(Running(0, None, 5), Waiting(0));
            && Enabled(Rivals(key), w, Begin(1, 5)) && Next(Rivals(key), maxRetries, w, Begin(1, 5)) == u
            && Enabled(Rivals(key), u, Begin(2, 6))
            && Next(Rivals(key), maxRetries, u, Begin(2, 6)) == Before(Running(0, None, 5), Running(0, None, 6))
  {
    var w := Before(Waiting(0), Waiting(0));
    assert OpenRow(w.facts, key) == None;
    assert w.clients[1 := Running(0, None, 5)] == map[1 := Running(0, None, 5), 2 := Waiting(0)];
  }

  lemma LateWins(key: FactKey, maxRetries: nat)
    ensures Leads(Rivals(key), maxRetries, Before(Waiting(0), Waiting(0)), [Begin(1, 5), Begin(2, 6), Finish(2)],
                  Afterwards(key, Running(0, None, 5)))
  {
    var calls := Rivals(key);
    var start := Before(Waiting(0), Waiting(0));
    BothBegin(key, maxRetries);
    LeadsOn(calls, maxRetries, start, [], start, Begin(1, 5), Before(Running(0, None, 5), Waiting(0)));
    var s1 := [] + [Begin(1, 5)];
    LeadsOn(calls, maxRetries, start, s1, Before(Running(0, None, 5), Waiting(0)), Begin(2, 6), Before(Running(0, None, 5), Running(0, None, 6)));
    LateCommits(key, maxRetries);
    LeadsOn(calls, maxRetries, start, s1 + [Begin(2, 6)], Before(Running(0, None, 5), Running(0, None, 6)), Finish(2),
            Afterwards(key, Running(0, None, 5)));
    assert s1 + [Begin(2, 6)] + [Finish(2)] == [Begin(1, 5), Begin(2, 6), Finish(2)];
  }

  lemma BothAreStarting(key: FactKey)
    ensures Starting(Rivals(key), Before(Waiting(0), Waiting(0)))
  {
    var start := Before(Waiting(0), Waiting(0));
    forall k ensures Chain(start.facts, k, OfKey(start.log, k)) { assert OfKey(start.log, k) == []; }
  }

  lemma EarlyLoses(key: FactKey, maxRetries: nat, start: World, steps: seq<Step>)
    requires maxRetries > 0
    requires Leads(Rivals(key), maxRetries, start, steps, Afterwards(key, Running(0, None, 5)))
    ensures Leads(Rivals(key), maxRetries, start, steps + [Abort(1)] + [Begin(1, 7)] + [Finish(1)], Afterwards(key, Rejected))
  {
    var calls := Rivals(key);
    EarlyIsAborted(key, maxRetries);
    LeadsOn(calls, maxRetries, start, steps, Afterwards(key, Running(0, None, 5)), Abort(1), Afterwards(key, Waiting(1)));
    EarlyIsRejected(key, maxRetries);
    var s4 := steps + [Abort(1)];
    LeadsOn(calls, maxRetries, start, s4, Afterwards(key, Waiting(1)), Begin(1, 7), Afterwards(key, Running(1, Some(12), 7)));
    LeadsOn(calls, maxRetries, start, s4 + [Begin(1, 7)], Afterwards(key, Running(1, Some(12), 7)), Finish(1), Afterwards(key, Rejected));
  }

  /** The comment at recall.py:141-149 expects a retry to close the rival's row. Two callers
      of a fresh key, at instants 1 and 2, show that it need not: once 2 has committed, the
      retry of 1 meets valid_to > valid_from and is rejected, under any retry limit. */
  lemma RetryOfTheEarlierInstantIsRejected(maxRetries: nat, key: FactKey)
    requires maxRetries > 0
    ensures Starting(Rivals(key), Before(Waiting(0), Waiting(0)))
    ensures Leads(Rivals(key), maxRetries, Before(Waiting(0), Waiting(0)),
                  [Begin(1, 5), Begin(2, 6), Finish(2), Abort(1), Begin(1, 7), Finish(1)], Afterwards(key, Rejected))
  {
    BothAreStarting(key);
    LateWins(key, maxRetries);
    var s3 := [Begin(1, 5), Begin(2, 6), Finish(2)];
    EarlyLoses(key, maxRetries, Before(Waiting(0), Waiting(0)), s3);
    assert s3 + [Abort(1)] + [Begin(1, 7)] + [Finish(1)] == [Begin(1, 5), Begin(2, 6), Finish(2), Abort(1), Begin(1, 7), Finish(1)];
  }

  // ---- A clock that falls behind -----------------------------------------------

  /** A legal run in which nothing is aborted, by any clock, ending in w. */
  ghost predicate Reaches(calls: Calls, maxRetries: nat, start: World, steps: seq<Step>, w: World) {
    && Legal(calls, maxRetries, start, steps)
    && (forall k :: 0 <= k < |steps| ==> !steps[k].Abort?)
    && After(calls, maxRetries, start, steps) == w
  }

  lemma ReachesOn(calls: Calls, maxRetries: nat, start: World, steps: seq<Step>, w: World, step: Step)
    requires Reaches(calls, maxRetries, start, steps, w) && Enabled(calls, w, step) && !step.Abort?
    ensures Reaches(calls, maxRetries, start, steps + [step], Next(calls, maxRetries, w, step))
  {
    assert (steps + [step])[..|steps|] == steps;
  }

  /** An undisturbed attempt with the given now() commits with it. */
  lemma CommitsAt(calls: Calls, maxRetries: nat, start: World, steps: seq<Step>, w: World, c: int, now: int) returns (t: World)
    requires Starting(calls, start) && Reaches(calls, maxRetries, start, steps, w) && Fits(calls, w)
    requires c in calls && w.clients[c].Waiting? && !Overtaken(w.log, calls[c])
    ensures Reaches(calls, maxRetries, start, steps + [Begin(c, now), Finish(c)], t) && Fits(calls, t)
    ensures Becomes(w, c, t) && t.log == w.log + [Stamped(calls[c], now)]
  {
    EveryInterleavingIsSafe(calls, maxRetries, start, steps);
    OvertakenIffRefused(w.facts, w.log, calls[c]);
    var u := Next(calls, maxRetries, w, Begin(c, now));
    ReachesOn(calls, maxRetries, start, steps, w, Begin(c, now));
    ReachesOn(calls, maxRetries, start, steps + [Begin(c, now)], u, Finish(c));
    assert steps + [Begin(c, now)] + [Finish(c)] == steps + [Begin(c, now), Finish(c)];
    t := Next(calls, maxRetries, u, Finish(c));
  }

  lemma LaterIsNotOvertaken(log: seq<Transition>, mine: Transition, later: Call)
    requires mine.key == later.key && mine.at < later.at
    requires !Overtaken(log, Call(mine.id, mine.key, mine.object_, mine.at))
    ensures !Overtaken(log + [mine], later)
  {
    var all := log + [mine];
    forall i | 0 <= i < |all| && all[i].key == later.key ensures all[i].at < later.at {
      assert i < |log| ==> log[i] == all[i];
    }
  }

  /** c, then d, each undisturbed. */
  function OneThenOther(c: int, first: int, d: int, second: int): seq<Step> {
    [Begin(c, first), Finish(c)] + [Begin(d, second), Finish(d)]
  }

  lemma BothCommit(calls: Calls, maxRetries: nat, start: World, c: int, d: int, first: int, second: int) returns (w: World)
    requires Starting(calls, start) && c in calls && d in calls
    requires calls[c].key == calls[d].key && calls[c].at < calls[d].at && !Overtaken(start.log, calls[c])
    ensures Reaches(calls, maxRetries, start, OneThenOther(c, first, d, second), w)
    ensures w.log == start.log + [Stamped(calls[c], first)] + [Stamped(calls[d], second)]
  {
    var u := CommitsAt(calls, maxRetries, start, [], start, c, first);
    LaterIsNotOvertaken(start.log, Stamped(calls[c], first), calls[d]);
    assert [] + [Begin(c, first), Finish(c)] == [Begin(c, first), Finish(c)];
    w := CommitsAt(calls, maxRetries, start, [Begin(c, first), Finish(c)], u, d, second);
  }

  /** The failing run, for any two callers of a key of whom the earlier is not overtaken: if the
      clock gives the second attempt no later a now() than the first, both commit and the
      history query no longer answers the chain in order. */
  lemma FallingClockMisleads(calls: Calls, maxRetries: nat, start: World, c: int, d: int, first: int, second: int) returns (w: World)
    requires Starting(calls, start) && c in calls && d in calls
    requires calls[c].key == calls[d].key && calls[c].at < calls[d].at && !Overtaken(start.log, calls[c])
    requires second <= first
    ensures Reaches(calls, maxRetries, start, OneThenOther(c, first, d, second), w)
    ensures w.log == start.log + [Stamped(calls[c], first)] + [Stamped(calls[d], second)]
    ensures !HistoryFaithful(w.facts, calls[c].key, OfKey(w.log, calls[c].key))
  {
    w := BothCommit(calls, maxRetries, start, c, d, first, second);
    DropInLog(start.log, Stamped(calls[c], first), Stamped(calls[d], second));
    EveryInterleavingIsSafe(calls, maxRetries, start, OneThenOther(c, first, d, second));
    HistoryIsTheLogIff(w.facts, w.log, calls[c].key);
  }

  lemma DropInLog(log: seq<Transition>, a: Transition, b: Transition)
    requires a.key == b.key && b.recordedAt <= a.recordedAt
    ensures !RecordedRises(OfKey(log + [a] + [b], a.key))
  {
    var chain := OfKey(log, a.key);
    OfKeyAppend(log, a, a.key);
    OfKeyAppend(log + [a], b, a.key);
    var all := OfKey(log + [a] + [b], a.key);
    assert all[|chain|] == a && all[|chain| + 1] == b;
  }

  /** Two callers of a fresh key: the clock reads 6 for the first and 5 for the second. */
  lemma FallingClockOnAFreshKey(key: FactKey, maxRetries: nat) returns (w: World)
    ensures Starting(Rivals(key), Before(Waiting(0), Waiting(0)))
    ensures Reaches(Rivals(key), maxRetries, Before(Waiting(0), Waiting(0)), OneThenOther(1, 6, 2, 5), w)
    ensures w.log == [Stamped(Early(key), 6), Stamped(Late(key), 5)]
    ensures !HistoryFaithful(w.facts, key, OfKey(w.log, key))
  {
    BothAreStarting(key);
    w := FallingClockMisleads(Rivals(key), maxRetries, Before(Waiting(0), Waiting(0)), 1, 2, 6, 5);
  }
}
