/** What the simulator's actions, resolutions and faults do, said of the rows alone
    (simulator/postmortem_sim/conductor.py:125-677), and what every run keeps of it. */
module SimulatorRules {
  import opened Contracts
  import opened Simulator
  import opened SimulatorRuns

  // ---- What a successful action is --------------------------------------------------

  /** Equal as Python compares JSON values: numbers by value, a bool as 0 or 1. */
  predicate Alike(a: Value, b: Value) {
    match a
    case Number(m) => (b.Number? && m == b.number) || (b.Flag? && m == if b.flag then 1 else 0)
    case Flag(f) => (b.Flag? && f == b.flag) || (b.Number? && b.number == if f then 1 else 0)
    case Text(s) => b.Text? && s == b.text
    case Other(n) => b.Other? && n == b.other
  }

  /** The parameter a plan's entry asks for under a key is there: the literal it names, or the
      previous stable version of the incident's service, or nothing where there is none. */
  predicate Given(wanted: Wanted, stable: Option<string>, params: map<string, Value>, key: string) {
    match wanted
    case Literal(x) => key in params && Alike(params[key], x)
    case PreviousStable =>
      if stable == None then key !in params else key in params && params[key].Text? && params[key].text == stable.value
  }

  /** An action of this kind on this target with these parameters is what the entry asks for. */
  predicate Answers(e: Expected, service: string, stable: Option<string>, kind: string, target: string, params: map<string, Value>) {
    && kind == e.kind
    && (e.target == None ==> target == service)
    && (e.target.Some? ==> target == e.target.value)
    && forall key :: key in e.params ==> Given(e.params[key], stable, params, key)
  }

  lemma MeetsIsAnswers(e: Expected, service: string, stable: Option<string>, kind: string, target: string, params: map<string, Value>)
    ensures Meets(e, service, stable, kind, target, params) <==> Answers(e, service, stable, kind, target, params)
  {
    forall key | key in e.params
      ensures Satisfies(e.params[key], stable, Param(params, key)) <==> Given(e.params[key], stable, params, key)
    {}
  }

  /** After any run the k-th successful action of an incident is of the kind, on the target and
      with the parameters that the k-th entry of its plan asks for. */
  lemma SuccessesAnswerThePlan(w: World, oracle: Oracle, cs: seq<Command>, id: int, k: nat)
    requires Fresh(w)
    ensures Sited(w)
    ensures var u := Run(w, oracle, cs);
            id in u.incidents && oracle(id).required != [] && k < |Successes(u.actions, id)| ==>
              var a := Successes(u.actions, id)[k];
              && k < |oracle(id).required|
              && Answers(oracle(id).required[k], u.incidents[id].service, a.stable, a.kind, a.target, a.params)
  {
    PlansAreFollowed(w, oracle, cs);
    var u := Run(w, oracle, cs);
    if id in u.incidents && oracle(id).required != [] && k < |Successes(u.actions, id)| {
      var a := Successes(u.actions, id)[k];
      assert Followed(oracle(id).required, u.incidents[id], Successes(u.actions, id));
      MeetsIsAnswers(oracle(id).required[k], u.incidents[id].service, a.stable, a.kind, a.target, a.params);
    }
  }

  /** The outcome that an accepted action is logged with, and what is logged of it. */
  lemma LoggedAsItIs(w: World, oracle: Oracle, id: int, r: Request)
    requires Accepted(w, id, r) && w.incidents[id].service in w.platform.services
    ensures var u := Applied(w, oracle, id, r);
            var i, required := w.incidents[id], oracle(id).required;
            var stable := w.platform.services[i.service].previousStable;
            var hit := i.step < |required| && Answers(required[i.step], i.service, stable, r.kind, r.target, r.params);
            && u.now == w.now + (if hit then oracle(id).actionSeconds else oracle(id).penaltySeconds)
            && u.actions == w.actions + [Taken(id, r.kind, r.target, r.params, stable, if hit then Succeeded else NoEffectSeen, u.now)]
            && u.orders == w.orders + (if hit then [] else [Order(id, u.now), Order(id, u.now + 1)])
            && u.incidents.Keys == w.incidents.Keys
            && (forall k :: k in w.incidents && k != id ==> u.incidents[k] == w.incidents[k])
            && u.incidents[id].step == i.step + (if hit then 1 else 0)
            && (u.incidents[id].status == Resolved <==> u.incidents[id].step == |required|)
            && (u.incidents[id].status != Resolved ==> u.incidents[id].status == if hit then Mitigating else i.status)
  {
    var i, required := w.incidents[id], oracle(id).required;
    if i.step < |required| {
      MeetsIsAnswers(required[i.step], i.service, w.platform.services[i.service].previousStable, r.kind, r.target, r.params);
    }
    assert FailedOrders(id, Applied(w, oracle, id, r).now, 2) == [Order(id, Applied(w, oracle, id, r).now), Order(id, Applied(w, oracle, id, r).now + 1)];
  }

  // ---- Which actions are refused ------------------------------------------------------

  predicate HasText(r: Request, key: string) { key in r.params && match r.params[key] case Text(_) => true case _ => false }

  /** An int, a bool counting as one, within the bounds. */
  predicate HasInt(r: Request, key: string, low: int, high: Option<int>) {
    key in r.params && match r.params[key]
      case Number(n) => low <= n && (high.Some? ==> n <= high.value)
      case Flag(f) => low <= (if f then 1 else 0) && (high.Some? ==> (if f then 1 else 0) <= high.value)
      case _ => false
  }

  /** An action is accepted exactly for a known, unresolved incident, a known target, one of the
      eight kinds, and the parameters that kind needs. */
  lemma AcceptedExactly(w: World, id: int, r: Request)
    ensures Accepted(w, id, r) <==>
            && id in w.incidents && w.incidents[id].status in {Open, Mitigating} && r.target in w.platform.services
            && r.kind in {"rollback_deploy", "set_config", "restart_service", "failover_dependency", "scale_service",
                          "throttle_traffic", "no_op_page_human", "escalate"}
            && (r.kind == "rollback_deploy" ==> HasText(r, "target_version"))
            && (r.kind == "set_config" ==> HasText(r, "key") && "value" in r.params)
            && (r.kind == "failover_dependency" ==>
                  && HasText(r, "dependency_key") && r.params["dependency_key"].text in w.platform.dependencies
                  && HasText(r, "to_service") && r.params["to_service"].text in w.platform.services)
            && (r.kind == "scale_service" ==> HasInt(r, "capacity_units", 1, None))
            && (r.kind == "throttle_traffic" ==> HasInt(r, "traffic_percent", 1, Some(100)))
  {}

  // ---- What an action changes ----------------------------------------------------------

  /** Only this service's row differs, and it is this one now. */
  predicate OneService(p: Platform, q: Platform, name: string, row: Service) {
    name in p.services && q.services == p.services[name := row]
  }

  /** A new open revision; the newest open one of the key, if any, ends now. */
  ghost predicate Reconfigured(before: seq<Config>, after: seq<Config>, now: int, service: string, key: string, value: Value) {
    && |after| == |before| + 1
    && after[|before|] == Config(service, key, value, now, None)
    && forall i :: 0 <= i < |before| ==> after[i] == if NewestOpen(before, i, service, key) then before[i].(validTo := Some(now)) else before[i]
  }

  ghost predicate NewestOpen(cs: seq<Config>, i: nat, service: string, key: string)
    requires i < |cs|
  {
    && cs[i].service == service && cs[i].key == key && cs[i].validTo == None
    && forall j :: i < j < |cs| ==> !(cs[j].service == service && cs[j].key == key && cs[j].validTo == None)
  }

  lemma {:induction false} ClosedIsNewestOpen(cs: seq<Config>, service: string, key: string, now: int)
    ensures var after := ClosedCurrent(cs, service, key, now);
            && |after| == |cs|
            && forall i :: 0 <= i < |cs| ==> after[i] == if NewestOpen(cs, i, service, key) then cs[i].(validTo := Some(now)) else cs[i]
  {
    if cs != [] {
      var front, last := cs[..|cs| - 1], cs[|cs| - 1];
      ClosedIsNewestOpen(front, service, key, now);
      if !(last.service == service && last.key == key && last.validTo == None) {
        forall i | 0 <= i < |front| ensures NewestOpen(cs, i, service, key) <==> NewestOpen(front, i, service, key) {
          assert forall j :: i < j < |front| ==> cs[j] == front[j];
          assert cs[i] == front[i];
        }
      }
    }
  }

  /** set_config and throttle_traffic, and the faults that change a key. */
  lemma ConfigIsReconfigured(p: Platform, now: int, service: string, key: string, value: Value)
    ensures var q := WithConfig(p, now, service, key, value);
            && q == p.(configs := q.configs) && Reconfigured(p.configs, q.configs, now, service, key, value)
  {
    ClosedIsNewestOpen(p.configs, service, key, now);
  }

  ghost predicate NewestRun(ds: seq<Deployment>, i: nat, service: string, version: string)
    requires i < |ds|
  {
    && ds[i].service == service && ds[i].version == version
    && forall j :: i < j < |ds| ==> !(ds[j].service == service && ds[j].version == version)
  }

  lemma {:induction false} FlaggedIsNewestRun(ds: seq<Deployment>, service: string, version: string)
    ensures var after := RolledBack(ds, service, version);
            && |after| == |ds|
            && forall i :: 0 <= i < |ds| ==> after[i] == if NewestRun(ds, i, service, version) then ds[i].(rolledBack := true) else ds[i]
  {
    if ds != [] {
      var front, last := ds[..|ds| - 1], ds[|ds| - 1];
      FlaggedIsNewestRun(front, service, version);
      if !(last.service == service && last.version == version) {
        forall i | 0 <= i < |front| ensures NewestRun(ds, i, service, version) <==> NewestRun(front, i, service, version) {
          assert forall j :: i < j < |front| ==> ds[j] == front[j];
          assert ds[i] == front[i];
        }
      }
    }
  }

  /** The newest deployment of the running version is flagged, and a rollback appended. */
  ghost predicate WentBack(before: seq<Deployment>, after: seq<Deployment>, now: int, service: string, running: string, version: string) {
    && |after| == |before| + 1
    && after[|before|] == Deployment(service, version, true, now, false)
    && forall i :: 0 <= i < |before| ==> after[i] == if NewestRun(before, i, service, running) then before[i].(rolledBack := true) else before[i]
  }

  function IntOf(v: Value): int { match v case Number(n) => n case Flag(f) => (if f then 1 else 0) case _ => 0 }

  /** What each kind of action changes in the platform, and nothing else. */
  lemma ActionChanges(p: Platform, now: int, r: Request)
    requires r.target in p.services && Executable(p, r)
    ensures var q := Mutated(p, now, r);
            var row := p.services[r.target];
            && (r.kind == "rollback_deploy" ==>
                  && q == p.(services := q.services, deployments := q.deployments)
                  && OneService(p, q, r.target, row.(version := r.params["target_version"].text))
                  && WentBack(p.deployments, q.deployments, now, r.target, row.version, r.params["target_version"].text))
            && (r.kind == "set_config" ==>
                  && q == p.(configs := q.configs)
                  && Reconfigured(p.configs, q.configs, now, r.target, r.params["key"].text, r.params["value"]))
            && (r.kind == "throttle_traffic" ==>
                  && q == p.(configs := q.configs)
                  && Reconfigured(p.configs, q.configs, now, r.target, "traffic_limit_percent", r.params["traffic_percent"]))
            && (r.kind == "restart_service" ==>
                  q == p.(services := q.services) && OneService(p, q, r.target, row.(restarts := row.restarts + 1)))
            && (r.kind == "scale_service" ==>
                  q == p.(services := q.services) && OneService(p, q, r.target, row.(capacity := IntOf(r.params["capacity_units"]))))
            && (r.kind == "failover_dependency" ==>
                  && q == p.(dependencies := q.dependencies)
                  && q.dependencies == p.dependencies[r.params["dependency_key"].text := Dependency(r.params["to_service"].text, true)])
            && (r.kind in {"no_op_page_human", "escalate"} ==> q == p)
  {
    if r.kind == "rollback_deploy" {
      FlaggedIsNewestRun(p.deployments, r.target, p.services[r.target].version);
    } else if r.kind == "set_config" {
      ConfigIsReconfigured(p, now, r.target, r.params["key"].text, r.params["value"]);
    } else if r.kind == "throttle_traffic" {
      ConfigIsReconfigured(p, now, r.target, "traffic_limit_percent", r.params["traffic_percent"]);
    }
  }

  // ---- What a resolution changes --------------------------------------------------------

  /** An alert of the incident that has not been cleared. */
  predicate Ringing(w: World, a: int, id: int) {
    a in w.alerts && w.alerts[a].incidentId == id && w.alerts[a].clearedAt == None
  }

  /** The action that completes the plan, or finds none, resolves: it sets the times, heals the
      incident's service, and clears the incident's alerts with the objectives they watch; any
      other action leaves health, alerts and objectives to the platform change alone. */
  lemma ResolutionSettles(w: World, oracle: Oracle, id: int, r: Request)
    requires Accepted(w, id, r) && w.incidents[id].service in w.platform.services
    ensures var u := Applied(w, oracle, id, r);
            var p := Mutated(w.platform, w.now, r);
            var i, j := w.incidents[id], u.incidents[id];
            if j.status == Resolved then
              && j == i.(step := j.step, status := Resolved, resolvedAt := Some(u.now), mttr := Some(u.now - i.openedAt))
              && i.service in p.services
              && u.platform == p.(services := p.services[i.service := p.services[i.service].(health := Healthy)])
              && u.alerts.Keys == w.alerts.Keys
              && (forall a :: a in w.alerts ==>
                    u.alerts[a] == if Ringing(w, a, id) then w.alerts[a].(clearedAt := Some(u.now)) else w.alerts[a])
              && (forall slo :: slo in u.breaching <==>
                    slo in w.breaching && forall a :: Ringing(w, a, id) ==> slo != SloKey(w.alerts[a].service, w.alerts[a].kind))
            else
              && j == i.(step := j.step, status := j.status)
              && u.platform == p && u.alerts == w.alerts && u.breaching == w.breaching
  {
    MutatedKeeps(w.platform, w.now, r);
  }

  // ---- What a fault changes -------------------------------------------------------------

  predicate Broke(p: Platform, q: Platform, dependency: string, failed: string) {
    q.dependencies == p.dependencies[dependency := Dependency(failed, false)]
  }

  /** A scenario is injected exactly when its service, its dependency and the services it fails
      exist, its ids are new, and a pool exhaustion that is no near miss finds an open pool size. */
  lemma InjectedExactly(w: World, s: Scenario)
    ensures Injectable(w, s) <==>
            && s.service in w.platform.services && s.id !in w.incidents && s.id !in w.alerts
            && (s.fault.DependencyDown? || s.fault.TopologyMigration? ==>
                  s.fault.dependency in w.platform.dependencies && s.fault.failed in w.platform.services)
            && (s.fault.TopologyMigration? && s.fault.migrated ==> "cache-onprem-replica" in w.platform.services)
            && (s.fault.PoolExhaustion? && !s.fault.nearMiss ==>
                  exists i :: 0 <= i < |w.platform.configs| &&
                    var c := w.platform.configs[i]; c.service == s.service && c.key == "db_pool_size" && c.validTo == None)
  {}

  /** The pool exhaustion that is refused leaves the clock moved and its service degraded. */
  lemma RefusedFaultTells(w: World, s: Scenario)
    requires WellFormed(w, s) && !Injectable(w, s)
    ensures var u := InjectionFailed(w, s);
            && s.fault == PoolExhaustion(false)
            && u == w.(now := u.now, platform := w.platform.(services := u.platform.services))
            && u.now == (if s.at > w.now then s.at else w.now)
            && OneService(w.platform, u.platform, s.service, w.platform.services[s.service].(health := Degraded))
  {}

  /** The incident a scenario opens: its clock, its alert, its objective and its failed orders. */
  lemma InjectionOpens(w: World, s: Scenario)
    requires Injectable(w, s)
    ensures var u := Injected(w, s);
            && u.now == (if s.at > w.now then s.at else w.now)
            && u.incidents == w.incidents[s.id := Incident(s.service, Open, u.now, None, None, 0)]
            && u.alerts == w.alerts[s.id := Alert(s.id, s.service, s.sloKind, None)]
            && u.breaching == w.breaching + {SloKey(s.service, s.sloKind)}
            && u.platform == Faulted(w, s, u.now)
            && u.actions == w.actions
            && |u.orders| == |w.orders| + s.failedOrders
            && (forall k :: 0 <= k < |w.orders| ==> u.orders[k] == w.orders[k])
            && (forall k :: |w.orders| <= k < |u.orders| ==> u.orders[k] == Order(s.id, u.now + (k - |w.orders|)))
  {}

  /** Which service rows a fault touches. */
  predicate OnlyServices(p: Platform, q: Platform, touched: set<string>) {
    q.services.Keys == p.services.Keys && forall name :: name in p.services && name !in touched ==> q.services[name] == p.services[name]
  }

  /** What each family breaks, and nothing else. */
  lemma FaultBreaks(w: World, s: Scenario, now: int)
    requires WellFormed(w, s)
    ensures var p, q := w.platform, Faulted(w, s, now);
            && s.service in q.services && q.services[s.service].health == Degraded
            && match s.fault
               case BadDeploy(version) =>
                 && OneService(p, q, s.service, p.services[s.service].(
                      health := Degraded, version := version, previousStable := Some(p.services[s.service].version)))
                 && q == p.(services := q.services, deployments := p.deployments + [Deployment(s.service, version, false, now, false)])
               case DependencyDown(d, f) =>
                 && Broke(p, q, d, f) && OnlyServices(p, q, {s.service, f})
                 && (f != s.service ==> q.services[f] == p.services[f].(health := Down))
                 && q == p.(services := q.services, dependencies := q.dependencies)
               case ConfigRegression(key, value) =>
                 && Reconfigured(p.configs, q.configs, now, s.service, key, value)
                 && q == p.(services := q.services, configs := q.configs) && OnlyServices(p, q, {s.service})
               case DriverMigration(migrated) =>
                 && (if migrated then Reconfigured(p.configs, q.configs, now, s.service, "pool_driver", Text("multiplexed")) else q.configs == p.configs)
                 && q == p.(services := q.services, configs := q.configs) && OnlyServices(p, q, {s.service})
               case TopologyMigration(d, f, migrated) =>
                 && (if migrated then Reconfigured(p.configs, q.configs, now, s.service, "cache_failover_target", Text("cache-managed-primary"))
                     else q.configs == p.configs)
                 && Broke(p, q, d, f) && q == p.(services := q.services, dependencies := q.dependencies, configs := q.configs)
                 && OnlyServices(p, q, {s.service, f} + if migrated then {"cache-onprem-replica"} else {})
                 && (f != s.service ==> q.services[f] == p.services[f].(health := Down))
                 && (migrated && "cache-onprem-replica" != s.service ==> q.services["cache-onprem-replica"].health == Down)
               case _ => q == p.(services := q.services) && OnlyServices(p, q, {s.service})
  {
    match s.fault
    case ConfigRegression(key, value) => ConfigIsReconfigured(w.platform, now, s.service, key, value);
    case DriverMigration(migrated) => ConfigIsReconfigured(w.platform, now, s.service, "pool_driver", Text("multiplexed"));
    case TopologyMigration(d, f, migrated) => ConfigIsReconfigured(w.platform, now, s.service, "cache_failover_target", Text("cache-managed-primary"));
    case _ =>
  }

  /** A fault degrades its service and otherwise changes only what the family names. */
  lemma FaultDegrades(w: World, s: Scenario, now: int)
    requires WellFormed(w, s)
    ensures var p, q := w.platform, Faulted(w, s, now);
            var before, after := p.services[s.service], q.services[s.service];
            if s.fault.BadDeploy? then after == before.(health := Degraded, version := s.fault.version, previousStable := Some(before.version))
            else after == before.(health := Degraded)
  {}

  // ---- What every run keeps -------------------------------------------------------------

  /** An incident's alert rings exactly until it is resolved. */
  predicate AlertsTell(w: World) {
    && w.alerts.Keys == w.incidents.Keys
    && forall id :: id in w.incidents ==>
         && w.alerts[id].incidentId == id && w.alerts[id].service == w.incidents[id].service
         && (w.alerts[id].clearedAt == None <==> w.incidents[id].status != Resolved)
         && w.alerts[id].clearedAt == w.incidents[id].resolvedAt
  }

  /** Every incident is on a known service, its alert tells its state, and only a resolved one has
      a time of resolution. */
  ghost predicate RunKept(w: World) {
    && Sited(w) && AlertsTell(w)
    && forall id :: id in w.incidents && w.incidents[id].status != Resolved ==> w.incidents[id].resolvedAt == None
  }

  lemma InjectKeepsAlerts(w: World, s: Scenario)
    requires RunKept(w) && Injectable(w, s)
    ensures RunKept(Injected(w, s))
  {
    InjectedKeeps(w, s);
    InjectionOpens(w, s);
  }

  lemma ApplyKeepsAlerts(w: World, oracle: Oracle, id: int, r: Request)
    requires RunKept(w) && Accepted(w, id, r)
    ensures RunKept(Applied(w, oracle, id, r))
  {
    var u := Applied(w, oracle, id, r);
    AppliedKeeps(w, oracle, id, r);
    OneIncidentMoves(w, oracle, id, r);
    ResolutionSettles(w, oracle, id, r);
    forall a | a in w.alerts ensures Ringing(w, a, id) <==> a == id && w.alerts[a].clearedAt == None {}
  }

  lemma OneIncidentMoves(w: World, oracle: Oracle, id: int, r: Request)
    requires Accepted(w, id, r) && w.incidents[id].service in w.platform.services
    ensures var u := Applied(w, oracle, id, r);
            && u.incidents.Keys == w.incidents.Keys
            && forall k :: k in w.incidents && k != id ==> u.incidents[k] == w.incidents[k]
  {}

  lemma StepKeepsAlerts(w: World, oracle: Oracle, c: Command)
    requires RunKept(w)
    ensures RunKept(Next(w, oracle, c))
  {
    match c
    case Inject(s) => if Injectable(w, s) { InjectKeepsAlerts(w, s); }
    case Advance(_) =>
    case Apply(id, r) => if Accepted(w, id, r) { ApplyKeepsAlerts(w, oracle, id, r); }
  }

  /** In every run the alert of an incident rings from its injection until its resolution, and is
      cleared at that instant. */
  lemma {:induction false} AlertsRingUntilResolved(w: World, oracle: Oracle, cs: seq<Command>)
    requires Fresh(w) && w.alerts == map[]
    ensures Sited(w) && RunKept(Run(w, oracle, cs))
  {
    if cs != [] {
      AlertsRingUntilResolved(w, oracle, cs[..|cs| - 1]);
      StepKeepsAlerts(Run(w, oracle, cs[..|cs| - 1]), oracle, cs[|cs| - 1]);
    }
  }
}
