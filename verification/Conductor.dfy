/** The conductor object and the two evaluation arms that drive it
    (simulator/postmortem_sim/conductor.py:44-225, 536-677,
    evaluation/postmortem_eval/runner.py:174-260, real_agent.py:455-489). */
module Conductor {
  import opened Contracts
  import opened Simulator
  import opened SimulatorRuns
  import opened Sorting

  predicate ByInjection(a: Scenario, b: Scenario) { a.at < b.at || (a.at == b.at && a.id <= b.id) }

  datatype Observation = Observation(
    incidentId: int, service: string, sloKind: string, currentVersion: string, previousStable: Option<string>, observedAt: int)

  datatype Decision = Decision(seconds: nat, plan: seq<Request>)

  /** An arm's responder, free to answer anything to what it observes. */
  type Responder = Observation -> Decision

  datatype IncidentResult = IncidentResult(
    scenarioId: int, thinking: nat, mttr: int, actions: nat, wrong: nat, failedOrders: nat)

  /** The accounting every reported incident obeys. */
  predicate AddsUp(r: IncidentResult, s: Scenario, oracle: Oracle) {
    var p := oracle(s.id);
    && r.scenarioId == s.id
    && r.mttr == r.thinking + |p.required| * p.actionSeconds + r.wrong * p.penaltySeconds
    && r.failedOrders == s.failedOrders + 2 * r.wrong
    && r.actions == |p.required| + r.wrong
  }

  predicate Current(c: Config, service: string, key: string) {
    c.service == service && c.key == key && c.validTo == None
  }

  predicate Ran(d: Deployment, service: string, version: string) {
    d.service == service && d.version == version
  }

  lemma {:induction false} CurrentIsClosed(cs: seq<Config>, service: string, key: string, now: int, i: nat)
    requires i <= |cs| && (i > 0 ==> Current(cs[i - 1], service, key))
    requires forall k :: i <= k < |cs| ==> !Current(cs[k], service, key)
    ensures ClosedCurrent(cs, service, key, now) == if i > 0 then cs[i - 1 := cs[i - 1].(validTo := Some(now))] else cs
  {
    if cs != [] {
      var last := |cs| - 1;
      assert cs == cs[..last] + [cs[last]];
      if i < |cs| { CurrentIsClosed(cs[..last], service, key, now, i); }
    }
  }

  lemma {:induction false} NewestIsMarked(ds: seq<Deployment>, service: string, version: string, i: nat)
    requires i <= |ds| && (i > 0 ==> Ran(ds[i - 1], service, version))
    requires forall k :: i <= k < |ds| ==> !Ran(ds[k], service, version)
    ensures RolledBack(ds, service, version) == if i > 0 then ds[i - 1 := ds[i - 1].(rolledBack := true)] else ds
  {
    if ds != [] {
      var last := |ds| - 1;
      assert ds == ds[..last] + [ds[last]];
      if i < |ds| { NewestIsMarked(ds[..last], service, version, i); }
    }
  }

  /** Every scenario of the schedule has something to do. */
  predicate Planned(oracle: Oracle, scenarios: seq<Scenario>) {
    forall k :: 0 <= k < |scenarios| ==> oracle(scenarios[k].id).required != []
  }

  /** An alert is filed under its incident. */
  ghost predicate AlertsOwn(w: World) {
    forall a :: a in w.alerts ==> w.alerts[a].incidentId == a
  }

  /** The responder's view: no family, no oracle. */
  function ObservationOf(w: World, id: int): Option<Observation>
    requires Sited(w)
  {
    if id in w.incidents && id in w.alerts && w.alerts[id].clearedAt == None then
      var service := w.platform.services[w.incidents[id].service];
      Some(Observation(id, w.incidents[id].service, w.alerts[id].kind, service.version, service.previousStable, w.now))
    else None
  }

  class Conductor {
    const oracle: Oracle
    const scenarios: seq<Scenario>
    var nextScenario: nat
    var now: int
    var platform: Platform
    var breaching: set<SloKey>
    var alerts: map<int, Alert>
    var incidents: map<int, Incident>
    var orders: seq<Order>
    var actions: seq<Taken>

    constructor (start: World, fixture: seq<Scenario>, oracle: Oracle)
      ensures State() == start && this.oracle == oracle && nextScenario == 0
      ensures multiset(scenarios) == multiset(fixture) && Ordered(ByInjection, scenarios)
    {
      this.oracle := oracle;
      scenarios := Sorted(ByInjection, fixture);
      nextScenario := 0;
      now, platform, breaching, alerts := start.now, start.platform, start.breaching, start.alerts;
      incidents, orders, actions := start.incidents, start.orders, start.actions;
      new;
      SortedKeepsBag(ByInjection, fixture);
      InjectionOrderIsTotal();
      SortedIsOrdered(ByInjection, fixture);
    }

    function State(): World
      reads this
    {
      World(now, platform, breaching, alerts, incidents, orders, actions)
    }

    method AdvanceTime(seconds: int) returns (ok: bool)
      requires Sited(State())
      modifies `now
      ensures ok <==> seconds >= 0
      ensures State() == Next(old(State()), oracle, Advance(seconds))
    {
      ok := seconds >= 0;
      if ok { now := now + seconds; }
    }

    /** inject_next. None is an exception: an exhausted schedule, a pool exhaustion of a service
        without a db_pool_size, or a scenario that names what the world lacks; the last two
        raise after the index and the clock have moved. */
    method InjectNext() returns (injected: Option<Scenario>)
      requires Sited(State())
      modifies this
      ensures Sited(State())
      ensures injected.Some? <==> old(nextScenario) < |scenarios| && Injectable(old(State()), scenarios[old(nextScenario)])
      ensures nextScenario == old(nextScenario) + if old(nextScenario) < |scenarios| then 1 else 0
      ensures old(nextScenario) >= |scenarios| ==> State() == old(State())
      ensures injected.Some? ==>
                && injected.value == scenarios[old(nextScenario)]
                && State() == Injected(old(State()), injected.value)
      ensures injected == None && old(nextScenario) < |scenarios| ==>
                var s := scenarios[old(nextScenario)];
                if WellFormed(old(State()), s) then State() == InjectionFailed(old(State()), s)
                else State().(platform := old(platform)) == old(State()).(now := if old(now) < s.at then s.at else old(now))
    {
      if nextScenario >= |scenarios| { return None; }
      var s := scenarios[nextScenario];
      var w := State();
      nextScenario := nextScenario + 1;
      if now < s.at { now := s.at; }
      if !WellFormed(w, s) { return None; }
      if !Injectable(w, s) {
        platform := Degrade(platform, s.service, Degraded);
        return None;
      }
      platform := Faulted(w, s, now);
      InjectedKeeps(w, s);
      Open(s);
      injected := Some(s);
    }

    /** _open_incident */
    method Open(s: Scenario)
      modifies this
      ensures State() == Opened(old(State()), s) && nextScenario == old(nextScenario)
    {
      incidents := incidents[s.id := Incident(s.service, Status.Open, now, None, None, 0)];
      breaching := breaching + {SloKey(s.service, s.sloKind)};
      alerts := alerts[s.id := Alert(s.id, s.service, s.sloKind, None)];
      AddFailedOrders(s.id, s.failedOrders);
    }

    /** observe_incident, which needs an alert that is still active. */
    method Observe(id: int) returns (seen: Option<Observation>)
      requires Sited(State()) && AlertsOwn(State())
      ensures seen == ObservationOf(State(), id)
    {
      if id !in incidents { return None; }
      if a :| a in alerts && alerts[a].incidentId == id && alerts[a].clearedAt == None {
        var service := platform.services[incidents[id].service];
        return Some(Observation(id, incidents[id].service, alerts[a].kind, service.version, service.previousStable, now));
      }
      seen := None;
    }

    method AddFailedOrders(id: int, count: nat)
      modifies `orders
      ensures orders == old(orders) + FailedOrders(id, now, count)
    {
      var index := 0;
      while index < count
        invariant 0 <= index <= count
        invariant orders == old(orders) + FailedOrders(id, now, index)
      {
        assert FailedOrders(id, now, index + 1) == FailedOrders(id, now, index) + [Order(id, now + index)];
        orders := orders + [Order(id, now + index)];
        index := index + 1;
      }
    }

    /** Closes the newest open revision, found from the end, and opens the new one. */
    method SetConfig(service: string, key: string, value: Value)
      modifies `platform
      ensures platform == WithConfig(old(platform), now, service, key, value)
    {
      var cs := platform.configs;
      var i := |cs|;
      while i > 0 && !Current(cs[i - 1], service, key)
        invariant 0 <= i <= |cs|
        invariant forall k :: i <= k < |cs| ==> !Current(cs[k], service, key)
      {
        i := i - 1;
      }
      CurrentIsClosed(cs, service, key, now, i);
      if i > 0 { cs := cs[i - 1 := cs[i - 1].(validTo := Some(now))]; }
      platform := platform.(configs := cs + [Config(service, key, value, now, None)]);
    }

    /** Flags the newest deployment of the running version and appends the rollback. */
    method RollBack(target: string, version: string)
      requires target in platform.services
      modifies `platform
      ensures platform == old(platform).(
                deployments := RolledBack(old(platform).deployments, target, old(platform).services[target].version)
                               + [Deployment(target, version, true, now, false)],
                services := old(platform).services[target := old(platform).services[target].(version := version)])
    {
      var ds := platform.deployments;
      var running := platform.services[target].version;
      var i := |ds|;
      while i > 0 && !Ran(ds[i - 1], target, running)
        invariant 0 <= i <= |ds|
        invariant forall k :: i <= k < |ds| ==> !Ran(ds[k], target, running)
      {
        i := i - 1;
      }
      NewestIsMarked(ds, target, running, i);
      if i > 0 { ds := ds[i - 1 := ds[i - 1].(rolledBack := true)]; }
      platform := platform.(services := platform.services[target := platform.services[target].(version := version)]);
      platform := platform.(deployments := ds + [Deployment(target, version, true, now, false)]);
    }

    /** _mutate_action: every check comes before the first change. */
    method MutateAction(r: Request) returns (ok: bool)
      requires r.target in platform.services
      modifies `platform
      ensures ok <==> Executable(old(platform), r)
      ensures platform == if ok then Mutated(old(platform), now, r) else old(platform)
    {
      ok := Executable(platform, r);
      if !ok { return; }
      var service := platform.services[r.target];
      if r.kind == "rollback_deploy" {
        RollBack(r.target, r.params["target_version"].text);
      } else if r.kind == "set_config" {
        SetConfig(r.target, r.params["key"].text, r.params["value"]);
      } else if r.kind == "restart_service" {
        platform := platform.(services := platform.services[r.target := service.(restarts := service.restarts + 1)]);
      } else if r.kind == "failover_dependency" {
        var moved := Dependency(r.params["to_service"].text, true);
        platform := platform.(dependencies := platform.dependencies[r.params["dependency_key"].text := moved]);
      } else if r.kind == "scale_service" {
        platform := platform.(services := platform.services[r.target := service.(capacity := r.params["capacity_units"].AsInt())]);
      } else if r.kind == "throttle_traffic" {
        SetConfig(r.target, "traffic_limit_percent", r.params["traffic_percent"]);
      }
    }

    method Resolve(id: int)
      requires Sited(State()) && id in incidents
      modifies this
      ensures State() == Settled(old(State()), id) && nextScenario == old(nextScenario)
    {
      var w := State();
      var incident := incidents[id];
      incidents := incidents[id := incident.(status := Resolved, resolvedAt := Some(now), mttr := Some(now - incident.openedAt))];
      platform := Degrade(platform, incident.service, Healthy);
      breaching := breaching - Cleared(w, id);
      alerts := Clear(w, id);
    }

    /** The bookkeeping of an executed action. */
    method Note(id: int, r: Request, stable: Option<string>, hit: bool)
      requires id in incidents
      modifies this
      ensures State() == Noted(old(State()), oracle(id), id, r, stable, hit) && nextScenario == old(nextScenario)
    {
      var policy := oracle(id);
      now := now + if hit then policy.actionSeconds else policy.penaltySeconds;
      if hit {
        incidents := incidents[id := incidents[id].(step := incidents[id].step + 1, status := Mitigating)];
      } else {
        AddFailedOrders(id, 2);
      }
      actions := actions + [Taken(id, r.kind, r.target, r.params, stable, if hit then Succeeded else NoEffectSeen, now)];
    }

    /** apply_action up to the resolution check. */
    method TryAction(id: int, r: Request) returns (outcome: Option<Outcome>)
      requires Sited(State())
      modifies this
      ensures nextScenario == old(nextScenario)
      ensures outcome.Some? <==> Accepted(old(State()), id, r)
      ensures outcome == None ==> State() == old(State())
      ensures outcome.Some? ==>
                && State() == Tried(old(State()), oracle, id, r)
                && (outcome.value == Succeeded <==> IsExpected(old(State()), oracle, id, r))
    {
      if id !in incidents || incidents[id].status == Resolved || r.target !in platform.services { return None; }
      var required := oracle(id).required;
      var expected := incidents[id].step < |required|
                      && Matches(required[incidents[id].step], incidents[id], platform.services, r);
      var stable := platform.services[incidents[id].service].previousStable;
      var ok := MutateAction(r);
      if !ok { return None; }
      Note(id, r, stable, expected);
      outcome := Some(if expected then Succeeded else NoEffectSeen);
    }

    /** apply_action; None is SimulationError. */
    method ApplyAction(id: int, r: Request) returns (outcome: Option<Outcome>)
      requires Sited(State())
      modifies this
      ensures Sited(State()) && nextScenario == old(nextScenario)
      ensures outcome.Some? <==> Accepted(old(State()), id, r)
      ensures outcome == None ==> State() == old(State())
      ensures outcome.Some? ==>
                && State() == Applied(old(State()), oracle, id, r)
                && (outcome.value == Succeeded <==> IsExpected(old(State()), oracle, id, r))
    {
      ghost var w := State();
      outcome := TryAction(id, r);
      if outcome == None { return; }
      AppliedKeeps(w, oracle, id, r);
      TriedIsSited(w, oracle, id, r);
      if incidents[id].step == |oracle(id).required| { Resolve(id); }
    }

    /** One action of a plan, and what it does to the replay in progress. */
    method ActOnce(id: int, plan: seq<Request>, i: nat, ghost os: seq<Outcome>, ghost n: nat)
      returns (outcome: Option<Outcome>, finished: bool)
      requires Sited(State()) && i < |plan|
      modifies this
      ensures Sited(State()) && nextScenario == old(nextScenario)
      ensures outcome == None ==>
                && !finished && Replay(old(State()), oracle, id, plan[i..]).invalid > 0
                && After(os, n, Replay(old(State()), oracle, id, plan[i..])) == After(os, n + 1, Replay(State(), oracle, id, plan[i + 1..]))
      ensures outcome.Some? ==>
                After(os, n, Replay(old(State()), oracle, id, plan[i..]))
                == if finished then Replayed(State(), os + [outcome.value], n)
                   else After(os + [outcome.value], n, Replay(State(), oracle, id, plan[i + 1..]))
    {
      ReplayStep(State(), oracle, id, plan, i, os, n);
      outcome := ApplyAction(id, plan[i]);
      finished := outcome.Some? && incidents[id].step == |oracle(id).required|;
    }

    /** The loop of the real-agent arm: refused actions are counted and skipped. */
    method ReplayPlan(id: int, plan: seq<Request>) returns (outcomes: seq<Outcome>, invalid: nat)
      requires Sited(State())
      modifies this
      ensures Sited(State()) && nextScenario == old(nextScenario)
      ensures Replay(old(State()), oracle, id, plan) == Replayed(State(), outcomes, invalid)
    {
      outcomes, invalid := [], 0;
      ghost var whole := Replay(State(), oracle, id, plan);
      var i := 0;
      while i < |plan|
        invariant 0 <= i <= |plan|
        invariant Sited(State()) && nextScenario == old(nextScenario)
        invariant whole == After(outcomes, invalid, Replay(State(), oracle, id, plan[i..]))
      {
        var outcome, finished := ActOnce(id, plan, i, outcomes, invalid);
        i := i + 1;
        if outcome == None {
          invalid := invalid + 1;
          continue;
        }
        outcomes := outcomes + [outcome.value];
        if finished { return; }
      }
    }

    /** The loop of the harness arm: a refused action aborts the whole run. */
    method ApplyPlan(id: int, plan: seq<Request>) returns (ok: bool, outcomes: seq<Outcome>)
      requires Sited(State())
      modifies this
      ensures Sited(State()) && nextScenario == old(nextScenario)
      ensures ok ==> Replay(old(State()), oracle, id, plan) == Replayed(State(), outcomes, 0)
      ensures !ok ==> Replay(old(State()), oracle, id, plan).invalid > 0
    {
      ok, outcomes := true, [];
      ghost var whole := Replay(State(), oracle, id, plan);
      var i := 0;
      while i < |plan|
        invariant 0 <= i <= |plan|
        invariant ok && Sited(State()) && nextScenario == old(nextScenario)
        invariant whole == After(outcomes, 0, Replay(State(), oracle, id, plan[i..]))
      {
        var outcome, finished := ActOnce(id, plan, i, outcomes, 0);
        i := i + 1;
        if outcome == None { return false, outcomes; }
        outcomes := outcomes + [outcome.value];
        if finished { return; }
      }
    }

    /** Inject, observe, think. */
    method OpenAndThink(responder: Responder) returns (begun: Option<(Scenario, Decision)>)
      requires Sited(State()) && AlertsOwn(State())
      modifies this
      ensures Sited(State()) && AlertsOwn(State())
      ensures begun == None <==> old(nextScenario) >= |scenarios| || !Injectable(old(State()), scenarios[old(nextScenario)])
      ensures begun.Some? ==>
                && nextScenario == old(nextScenario) + 1
                && var (s, decision) := begun.value;
                   && s == scenarios[old(nextScenario)]
                   && decision == Answer(old(State()), s, responder)
                   && State() == Thought(old(State()), s, decision.seconds)
    {
      ghost var w := State();
      var injected := InjectNext();
      if injected == None { return None; }
      InjectedKeeps(w, injected.value);
      var seen := Observe(injected.value.id);
      var decision := responder(seen.value);
      var advanced := AdvanceTime(decision.seconds);
      begun := Some((injected.value, decision));
    }

    /** One incident of the harness arm: inject, observe, think, act, report. None is an
        exception: an exhausted or unfit schedule, a refused action, or no resolution. */
    method RunIncident(responder: Responder) returns (result: Option<IncidentResult>)
      requires Sited(State()) && AlertsOwn(State())
      requires nextScenario < |scenarios| ==> oracle(scenarios[nextScenario].id).required != []
      modifies this
      ensures Sited(State()) && (result.Some? ==> AlertsOwn(State()))
      ensures result.Some? <==> old(nextScenario) < |scenarios| && Finishes(old(State()), oracle, scenarios[old(nextScenario)], responder)
      ensures result.Some? ==>
                && nextScenario == old(nextScenario) + 1
                && State() == ArmOf(old(State()), oracle, scenarios[old(nextScenario)], responder).world
                && result.value == RowOf(old(State()), oracle, scenarios[old(nextScenario)], responder)
                && AddsUp(result.value, scenarios[old(nextScenario)], oracle)
    {
      var orderMark, actionMark := |orders|, |actions|;
      ghost var w := State();
      var begun := OpenAndThink(responder);
      if begun == None { return None; }
      var (s, decision) := begun.value;
      ghost var arm := ArmOf(w, oracle, s, responder);
      assert arm == Replay(State(), oracle, s.id, decision.plan);
      ghost var thought := State();
      var ok, outcomes := ApplyPlan(s.id, decision.plan);
      if !ok { return None; }
      ReplayKeepsAlerts(thought, oracle, s.id, decision.plan);
      assert arm == Replayed(State(), outcomes, 0);
      result := Report(w, s, decision.seconds, decision.plan, outcomes, orderMark, actionMark);
    }

    /** The row of one incident, or None if it was not resolved. */
    method Report(ghost w: World, s: Scenario, thinking: nat, ghost plan: seq<Request>, outcomes: seq<Outcome>,
                  orderMark: nat, actionMark: nat)
      returns (result: Option<IncidentResult>)
      requires Sited(w) && Injectable(w, s) && oracle(s.id).required != []
      requires Arm(w, oracle, s, thinking, plan) == Replayed(State(), outcomes, 0)
      requires orderMark == |w.orders| && actionMark == |w.actions|
      ensures s.id in incidents && (result.Some? <==> incidents[s.id].mttr.Some?)
      ensures result.Some? ==> result.value == ReadOff(w, State(), s, thinking, outcomes)
      ensures result.Some? ==> AddsUp(result.value, s, oracle)
    {
      ReportAddsUp(w, oracle, s, thinking, plan, State(), outcomes);
      if incidents[s.id].mttr == None { return None; }
      var wrong := Count(outcomes, NoEffectSeen);
      result := Some(IncidentResult(s.id, thinking, incidents[s.id].mttr.value,
                                    |Mine(actions[actionMark..], s.id)|, wrong, OwnOrders(orders[orderMark..], s.id)));
    }

    /** One turn of the harness loop, seen as progress of the whole arm. */
    method RunNext(responder: Responder) returns (result: Option<IncidentResult>)
      requires Sited(State()) && AlertsOwn(State()) && nextScenario < |scenarios|
      requires oracle(scenarios[nextScenario].id).required != []
      modifies this
      ensures Sited(State()) && (result.Some? ==> AlertsOwn(State()))
      ensures result == None ==> !Completes(old(State()), oracle, scenarios, old(nextScenario), responder)
      ensures result.Some? ==>
                && nextScenario == old(nextScenario) + 1
                && AddsUp(result.value, scenarios[old(nextScenario)], oracle)
                && (Completes(old(State()), oracle, scenarios, old(nextScenario), responder)
                    <==> Completes(State(), oracle, scenarios, nextScenario, responder))
                && RowsOf(old(State()), oracle, scenarios, old(nextScenario), responder)
                   == [result.value] + RowsOf(State(), oracle, scenarios, nextScenario, responder)
    {
      ghost var w, n := State(), nextScenario;
      result := RunIncident(responder);
      if result == None {
        StuckIsIncomplete(w, oracle, scenarios, n, responder);
      } else {
        FinishedGoesOn(w, State(), oracle, scenarios, n, responder);
        FinishedTells(w, State(), result.value, oracle, scenarios, n, responder);
      }
    }

    /** _run_arm of the harness: every remaining scenario in order, or an exception. */
    method RunArm(responder: Responder) returns (results: Option<seq<IncidentResult>>)
      requires Sited(State()) && AlertsOwn(State())
      requires Planned(oracle, scenarios)
      requires nextScenario <= |scenarios|
      modifies this
      ensures results.Some? <==> Completes(old(State()), oracle, scenarios, old(nextScenario), responder)
      ensures results.Some? ==>
                && |results.value| == |scenarios| - old(nextScenario)
                && results.value == RowsOf(old(State()), oracle, scenarios, old(nextScenario), responder)
                && forall k :: 0 <= k < |results.value| ==> AddsUp(results.value[k], scenarios[old(nextScenario) + k], oracle)
    {
      var done: seq<IncidentResult> := [];
      ghost var first, w := nextScenario, State();
      ghost var completes := Completes(w, oracle, scenarios, first, responder);
      ghost var rows := RowsOf(w, oracle, scenarios, first, responder);
      while nextScenario < |scenarios|
        invariant Sited(State()) && AlertsOwn(State())
        invariant first <= nextScenario <= |scenarios|
        invariant |done| == nextScenario - first
        invariant completes == Completes(State(), oracle, scenarios, nextScenario, responder)
        invariant rows == done + RowsOf(State(), oracle, scenarios, nextScenario, responder)
      {
        var result := RunNext(responder);
        if result == None { return None; }
        OneMoreRow(rows, done, result.value, RowsOf(State(), oracle, scenarios, nextScenario, responder));
        done := done + [result.value];
      }
      OwnTurnsAddUp(oracle, responder);
      RowsAddUp(TurnOf(oracle, responder), oracle, w, scenarios, first, done);
      results := Some(done);
    }
  }

  /** What the responder answers to a freshly injected scenario. */
  function Answer(w: World, s: Scenario, responder: Responder): Decision
    requires Sited(w) && Injectable(w, s)
  {
    InjectedKeeps(w, s);
    responder(ObservationOf(Injected(w, s), s.id).value)
  }

  function ArmOf(w: World, oracle: Oracle, s: Scenario, responder: Responder): Replayed
    requires Sited(w) && Injectable(w, s)
  {
    var decision := Answer(w, s, responder);
    Arm(w, oracle, s, decision.seconds, decision.plan)
  }

  /** The scenario fits the world, no action is refused, and the incident is resolved. */
  predicate Finishes(w: World, oracle: Oracle, s: Scenario, responder: Responder)
    requires Sited(w)
  {
    && Injectable(w, s)
    && var arm := ArmOf(w, oracle, s, responder);
       arm.invalid == 0 && s.id in arm.world.incidents && arm.world.incidents[s.id].mttr.Some?
  }

  /** Scenarios n and on all finish, one after the other. */
  predicate Completes(w: World, oracle: Oracle, scenarios: seq<Scenario>, n: nat, responder: Responder)
    requires Sited(w) && n <= |scenarios|
    decreases |scenarios| - n
  {
    n == |scenarios|
    || (Finishes(w, oracle, scenarios[n], responder)
        && (ArmIsSited(w, oracle, scenarios[n], responder);
            Completes(ArmOf(w, oracle, scenarios[n], responder).world, oracle, scenarios, n + 1, responder)))
  }

  /** What stands in after behind before. */
  function Added<T>(before: seq<T>, after: seq<T>): seq<T> {
    if |before| <= |after| then after[|before|..] else []
  }

  /** The row of an incident, read off the world: its MTTR, and the actions and failed orders
      that were logged for it since before. */
  function ReadOff(before: World, end: World, s: Scenario, thinking: nat, outcomes: seq<Outcome>): IncidentResult
    requires s.id in end.incidents && end.incidents[s.id].mttr.Some?
  {
    IncidentResult(s.id, thinking, end.incidents[s.id].mttr.value,
                   |Mine(Added(before.actions, end.actions), s.id)|, Count(outcomes, NoEffectSeen),
                   OwnOrders(Added(before.orders, end.orders), s.id))
  }

  function RowOf(w: World, oracle: Oracle, s: Scenario, responder: Responder): IncidentResult
    requires Sited(w) && Finishes(w, oracle, s, responder)
  {
    var arm := ArmOf(w, oracle, s, responder);
    ReadOff(w, arm.world, s, Answer(w, s, responder).seconds, arm.outcomes)
  }

  /** How one incident of an arm ends: the world after it and its row, or an exception. */
  type Turn = (World, Scenario) -> Option<(World, IncidentResult)>

  function TurnOf(oracle: Oracle, responder: Responder): Turn {
    (w, s) => if Sited(w) && Finishes(w, oracle, s, responder)
              then Some((ArmOf(w, oracle, s, responder).world, RowOf(w, oracle, s, responder))) else None
  }

  /** The rows of scenarios n and on, up to the first that does not finish. */
  function Rows(turn: Turn, w: World, scenarios: seq<Scenario>, n: nat): seq<IncidentResult>
    requires n <= |scenarios|
    decreases |scenarios| - n
  {
    if n == |scenarios| then []
    else
      match turn(w, scenarios[n])
      case None => []
      case Some((u, row)) => [row] + Rows(turn, u, scenarios, n + 1)
  }

  function RowsOf(w: World, oracle: Oracle, scenarios: seq<Scenario>, n: nat, responder: Responder): seq<IncidentResult>
    requires n <= |scenarios|
  {
    Rows(TurnOf(oracle, responder), w, scenarios, n)
  }

  lemma StuckIsIncomplete(w: World, oracle: Oracle, scenarios: seq<Scenario>, n: nat, responder: Responder)
    requires Sited(w) && n < |scenarios| && !Finishes(w, oracle, scenarios[n], responder)
    ensures !Completes(w, oracle, scenarios, n, responder)
  {}

  lemma FinishedGoesOn(w: World, u: World, oracle: Oracle, scenarios: seq<Scenario>, n: nat, responder: Responder)
    requires Sited(w) && Sited(u) && n < |scenarios| && Finishes(w, oracle, scenarios[n], responder)
    requires u == ArmOf(w, oracle, scenarios[n], responder).world
    ensures Completes(w, oracle, scenarios, n, responder) <==> Completes(u, oracle, scenarios, n + 1, responder)
  {}

  lemma FinishedTells(w: World, u: World, row: IncidentResult, oracle: Oracle, scenarios: seq<Scenario>, n: nat, responder: Responder)
    requires Sited(w) && n < |scenarios| && Finishes(w, oracle, scenarios[n], responder)
    requires u == ArmOf(w, oracle, scenarios[n], responder).world && row == RowOf(w, oracle, scenarios[n], responder)
    ensures RowsOf(w, oracle, scenarios, n, responder) == [row] + RowsOf(u, oracle, scenarios, n + 1, responder)
  {
    TurnsGoOn(TurnOf(oracle, responder), w, u, row, scenarios, n);
  }

  lemma TurnsGoOn(turn: Turn, w: World, u: World, row: IncidentResult, scenarios: seq<Scenario>, n: nat)
    requires n < |scenarios| && turn(w, scenarios[n]) == Some((u, row))
    ensures Rows(turn, w, scenarios, n) == [row] + Rows(turn, u, scenarios, n + 1)
  {}

  lemma TriedIsSited(w: World, oracle: Oracle, id: int, r: Request)
    requires Sited(w) && Accepted(w, id, r)
    ensures Sited(Tried(w, oracle, id, r))
  {
    MutatedKeeps(w.platform, w.now, r);
  }

  lemma {:induction false} ReplayIsSited(w: World, oracle: Oracle, id: int, plan: seq<Request>)
    requires Sited(w)
    ensures Sited(Replay(w, oracle, id, plan).world)
    decreases plan
  {
    if plan != [] {
      if !Accepted(w, id, plan[0]) {
        ReplayIsSited(w, oracle, id, plan[1..]);
      } else {
        AppliedKeeps(w, oracle, id, plan[0]);
        ReplayIsSited(Applied(w, oracle, id, plan[0]), oracle, id, plan[1..]);
      }
    }
  }

  lemma ArmIsSited(w: World, oracle: Oracle, s: Scenario, responder: Responder)
    requires Sited(w) && Injectable(w, s)
    ensures Sited(ArmOf(w, oracle, s, responder).world)
  {
    InjectedKeeps(w, s);
    var decision := Answer(w, s, responder);
    ReplayIsSited(Thought(w, s, decision.seconds), oracle, s.id, decision.plan);
  }

  lemma AppliedKeepsAlerts(w: World, oracle: Oracle, id: int, r: Request)
    requires Accepted(w, id, r) && w.incidents[id].service in w.platform.services && AlertsOwn(w)
    ensures AlertsOwn(Applied(w, oracle, id, r))
  {}

  lemma {:induction false} ReplayKeepsAlerts(w: World, oracle: Oracle, id: int, plan: seq<Request>)
    requires Sited(w) && AlertsOwn(w)
    ensures AlertsOwn(Replay(w, oracle, id, plan).world)
    decreases plan
  {
    if plan != [] {
      if !Accepted(w, id, plan[0]) {
        ReplayKeepsAlerts(w, oracle, id, plan[1..]);
      } else {
        AppliedKeeps(w, oracle, id, plan[0]);
        AppliedKeepsAlerts(w, oracle, id, plan[0]);
        ReplayKeepsAlerts(Applied(w, oracle, id, plan[0]), oracle, id, plan[1..]);
      }
    }
  }

  /** A replay seen from its middle. */
  function After(outcomes: seq<Outcome>, invalid: nat, rest: Replayed): Replayed {
    Replayed(rest.world, outcomes + rest.outcomes, invalid + rest.invalid)
  }

  /** What one more action of the plan does to a replay in progress. */
  lemma ReplayStep(w: World, oracle: Oracle, id: int, plan: seq<Request>, i: nat, os: seq<Outcome>, n: nat)
    requires Sited(w) && i < |plan|
    ensures !Accepted(w, id, plan[i]) ==>
              After(os, n, Replay(w, oracle, id, plan[i..])) == After(os, n + 1, Replay(w, oracle, id, plan[i + 1..]))
    ensures Accepted(w, id, plan[i]) ==>
              var u := Applied(w, oracle, id, plan[i]);
              var o := if IsExpected(w, oracle, id, plan[i]) then Succeeded else NoEffectSeen;
              && Sited(u)
              && After(os, n, Replay(w, oracle, id, plan[i..]))
                 == if u.incidents[id].step == |oracle(id).required| then Replayed(u, os + [o], n)
                    else After(os + [o], n, Replay(u, oracle, id, plan[i + 1..]))
  {
    assert plan[i..][1..] == plan[i + 1..];
    if Accepted(w, id, plan[i]) {
      AppliedKeeps(w, oracle, id, plan[i]);
      var u := Applied(w, oracle, id, plan[i]);
      var o := if IsExpected(w, oracle, id, plan[i]) then Succeeded else NoEffectSeen;
      if u.incidents[id].step != |oracle(id).required| {
        var rest := Replay(u, oracle, id, plan[i + 1..]);
        assert os + ([o] + rest.outcomes) == (os + [o]) + rest.outcomes;
      }
    }
  }

  lemma ReportAddsUp(w: World, oracle: Oracle, s: Scenario, thinking: nat, plan: seq<Request>, end: World, outcomes: seq<Outcome>)
    requires Sited(w) && Injectable(w, s) && oracle(s.id).required != []
    requires Arm(w, oracle, s, thinking, plan) == Replayed(end, outcomes, 0)
    ensures s.id in end.incidents && |w.orders| <= |end.orders| && |w.actions| <= |end.actions|
    ensures end.incidents[s.id].mttr.Some? ==>
              AddsUp(IncidentResult(s.id, thinking, end.incidents[s.id].mttr.value,
                                    |Mine(end.actions[|w.actions|..], s.id)|, Count(outcomes, NoEffectSeen),
                                    OwnOrders(end.orders[|w.orders|..], s.id)), s, oracle)
  {
    MttrFormula(w, oracle, s, thinking, plan);
    AllOwnOrders(end.orders[|w.orders|..], s.id);
    AllMine(end.actions[|w.actions|..], s.id);
  }

  lemma RowAddsUp(w: World, oracle: Oracle, s: Scenario, responder: Responder)
    requires Sited(w) && Finishes(w, oracle, s, responder) && oracle(s.id).required != []
    ensures AddsUp(RowOf(w, oracle, s, responder), s, oracle)
  {
    var arm, decision := ArmOf(w, oracle, s, responder), Answer(w, s, responder);
    ReportAddsUp(w, oracle, s, decision.seconds, decision.plan, arm.world, arm.outcomes);
  }

  ghost predicate TurnsAddUp(turn: Turn, oracle: Oracle) {
    forall w: World, s: Scenario :: turn(w, s).Some? && oracle(s.id).required != [] ==> AddsUp(turn(w, s).value.1, s, oracle)
  }

  lemma OwnTurnsAddUp(oracle: Oracle, responder: Responder)
    ensures TurnsAddUp(TurnOf(oracle, responder), oracle)
  {
    var turn := TurnOf(oracle, responder);
    forall w: World, s: Scenario | turn(w, s).Some? && oracle(s.id).required != [] ensures AddsUp(turn(w, s).value.1, s, oracle) {
      RowAddsUp(w, oracle, s, responder);
    }
  }

  lemma {:induction false} RowAtAddsUp(turn: Turn, oracle: Oracle, w: World, scenarios: seq<Scenario>, n: nat, i: nat)
    requires TurnsAddUp(turn, oracle) && Planned(oracle, scenarios)
    requires n <= i < |scenarios| && i - n < |Rows(turn, w, scenarios, n)|
    ensures AddsUp(Rows(turn, w, scenarios, n)[i - n], scenarios[i], oracle)
    decreases |scenarios| - n
  {
    if i > n { RowAtAddsUp(turn, oracle, turn(w, scenarios[n]).value.0, scenarios, n + 1, i); }
  }

  /** Every row of an arm adds up. */
  lemma RowsAddUp(turn: Turn, oracle: Oracle, w: World, scenarios: seq<Scenario>, n: nat, rows: seq<IncidentResult>)
    requires TurnsAddUp(turn, oracle) && Planned(oracle, scenarios)
    requires n <= |scenarios| && |rows| <= |scenarios| - n && rows == Rows(turn, w, scenarios, n)
    ensures forall k :: 0 <= k < |rows| ==> AddsUp(rows[k], scenarios[n + k], oracle)
  {
    forall k | 0 <= k < |rows| ensures AddsUp(rows[k], scenarios[n + k], oracle) {
      RowAtAddsUp(turn, oracle, w, scenarios, n, n + k);
    }
  }

  lemma OneMoreRow(rows: seq<IncidentResult>, done: seq<IncidentResult>, row: IncidentResult, rest: seq<IncidentResult>)
    requires rows == done + ([row] + rest)
    ensures rows == (done + [row]) + rest
  {}

  /** The world when the responder has made up its mind. */
  function Thought(w: World, s: Scenario, thinking: nat): World
    requires Injectable(w, s)
  {
    var t := Injected(w, s);
    t.(now := t.now + thinking)
  }

  function OwnOrders(os: seq<Order>, id: int): nat {
    if os == [] then 0 else OwnOrders(os[..|os| - 1], id) + if os[|os| - 1].incidentId == id then 1 else 0
  }

  lemma {:induction false} AllOwnOrders(os: seq<Order>, id: int)
    requires forall k :: 0 <= k < |os| ==> os[k].incidentId == id
    ensures OwnOrders(os, id) == |os|
  {
    if os != [] { AllOwnOrders(os[..|os| - 1], id); }
  }

  lemma {:induction false} AllMine(ts: seq<Taken>, id: int)
    requires forall k :: 0 <= k < |ts| ==> ts[k].incidentId == id
    ensures Mine(ts, id) == ts
  {
    if ts != [] { AllMine(ts[..|ts| - 1], id); }
  }

  lemma InjectionOrderIsTotal()
    ensures TotalPreorder(ByInjection)
  {}
}
