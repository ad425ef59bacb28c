/** The incident simulator (simulator/postmortem_sim/conductor.py, models.py). Times are whole
    seconds; measured SLO values, order amounts and generated record ids are left out. */
module Simulator {
  import opened Contracts

  datatype Health = Healthy | Degraded | Down
  datatype Status = Open | Mitigating | Resolved

  /** A JSON parameter. Python counts a bool as an int. */
  datatype Value = Text(text: string) | Number(number: int) | Flag(flag: bool) | Other(other: int)
  {
    predicate IsInt() { Number? || Flag? }
    function AsInt(): int
      requires IsInt()
    {
      if Number? then number else if flag then 1 else 0
    }
  }

  predicate SameValue(a: Value, b: Value) {
    if a.IsInt() && b.IsInt() then a.AsInt() == b.AsInt() else a == b
  }

  datatype Service = Service(health: Health, version: string, previousStable: Option<string>, capacity: int, restarts: nat)
  datatype Dependency = Dependency(toService: string, active: bool)
  datatype Config = Config(service: string, key: string, value: Value, validFrom: int, validTo: Option<int>)
  datatype Deployment = Deployment(service: string, version: string, rollback: bool, deployedAt: int, rolledBack: bool)
  datatype Incident = Incident(service: string, status: Status, openedAt: int, resolvedAt: Option<int>, mttr: Option<int>, step: nat)
  datatype Alert = Alert(incidentId: int, service: string, kind: string, clearedAt: Option<int>)
  datatype Order = Order(incidentId: int, createdAt: int)
  datatype Outcome = Succeeded | NoEffectSeen
  /** A logged action. stable is the previous stable version of the incident's service at that
      time: the match reads it, the source's log does not repeat it. */
  datatype Taken = Taken(
    incidentId: int, kind: string, target: string, params: map<string, Value>, stable: Option<string>,
    outcome: Outcome, appliedAt: int)
  datatype SloKey = SloKey(service: string, kind: string)

  /** What actions and faults change. */
  datatype Platform = Platform(
    services: map<string, Service>, dependencies: map<string, Dependency>,
    configs: seq<Config>, deployments: seq<Deployment>)

  datatype World = World(
    now: int, platform: Platform, breaching: set<SloKey>, alerts: map<int, Alert>,
    incidents: map<int, Incident>, orders: seq<Order>, actions: seq<Taken>)

  // ---- The resolution oracle --------------------------------------------------

  /** An expected value: a literal, or "$incident.previous_stable_version". */
  datatype Wanted = Literal(value: Value) | PreviousStable

  /** "$incident.service" is None. */
  datatype Expected = Expected(kind: string, target: Option<string>, params: map<string, Wanted>)

  datatype Policy = Policy(required: seq<Expected>, actionSeconds: nat, penaltySeconds: nat)

  /** The scenario's own policy, or its family's, per incident. */
  type Oracle = int -> Policy

  datatype Request = Request(kind: string, target: string, params: map<string, Value>)

  predicate Satisfies(w: Wanted, stable: Option<string>, v: Option<Value>) {
    match w
    case Literal(x) => v.Some? && SameValue(v.value, x)
    case PreviousStable => if stable.Some? then v == Some(Text(stable.value)) else v == None
  }

  function Param(params: map<string, Value>, key: string): Option<Value> {
    if key in params then Some(params[key]) else None
  }

  /** _matches: action, target and every expected parameter; parameters not expected are free. */
  predicate Meets(e: Expected, service: string, stable: Option<string>, kind: string, target: string, params: map<string, Value>) {
    && e.kind == kind
    && (if e.target == None then service else e.target.value) == target
    && forall key :: key in e.params ==> Satisfies(e.params[key], stable, Param(params, key))
  }

  predicate Matches(e: Expected, incident: Incident, services: map<string, Service>, r: Request)
    requires incident.service in services
  {
    Meets(e, incident.service, services[incident.service].previousStable, r.kind, r.target, r.params)
  }

  // ---- What an action does to the platform --------------------------------------

  predicate IsText(r: Request, key: string) { key in r.params && r.params[key].Text? }

  predicate IsNumber(r: Request, key: string) { key in r.params && r.params[key].IsInt() }

  /** The parameter checks, all made before anything changes. */
  predicate Executable(p: Platform, r: Request) {
    if r.kind == "rollback_deploy" then IsText(r, "target_version")
    else if r.kind == "set_config" then IsText(r, "key") && "value" in r.params
    else if r.kind == "restart_service" then true
    else if r.kind == "failover_dependency" then
      && IsText(r, "dependency_key") && r.params["dependency_key"].text in p.dependencies
      && IsText(r, "to_service") && r.params["to_service"].text in p.services
    else if r.kind == "scale_service" then IsNumber(r, "capacity_units") && r.params["capacity_units"].AsInt() > 0
    else if r.kind == "throttle_traffic" then
      IsNumber(r, "traffic_percent") && 1 <= r.params["traffic_percent"].AsInt() <= 100
    else r.kind == "no_op_page_human" || r.kind == "escalate"
  }

  /** Flags the newest deployment of this version. */
  function RolledBack(ds: seq<Deployment>, service: string, version: string): seq<Deployment> {
    if ds == [] then []
    else
      var front := ds[..|ds| - 1];
      var last := ds[|ds| - 1];
      if last.service == service && last.version == version then front + [last.(rolledBack := true)]
      else RolledBack(front, service, version) + [last]
  }

  /** Closes the newest open revision. */
  function ClosedCurrent(cs: seq<Config>, service: string, key: string, now: int): seq<Config> {
    if cs == [] then []
    else
      var front := cs[..|cs| - 1];
      var last := cs[|cs| - 1];
      if last.service == service && last.key == key && last.validTo == None then front + [last.(validTo := Some(now))]
      else ClosedCurrent(front, service, key, now) + [last]
  }

  /** _set_config */
  function SetConfig(cs: seq<Config>, now: int, service: string, key: string, value: Value): seq<Config> {
    ClosedCurrent(cs, service, key, now) + [Config(service, key, value, now, None)]
  }

  function WithConfig(p: Platform, now: int, service: string, key: string, value: Value): Platform {
    p.(configs := SetConfig(p.configs, now, service, key, value))
  }

  /** _mutate_action */
  function Mutated(p: Platform, now: int, r: Request): Platform
    requires r.target in p.services && Executable(p, r)
  {
    var service := p.services[r.target];
    if r.kind == "rollback_deploy" then
      var version := r.params["target_version"].text;
      p.(deployments := RolledBack(p.deployments, r.target, service.version) + [Deployment(r.target, version, true, now, false)],
         services := p.services[r.target := service.(version := version)])
    else if r.kind == "set_config" then WithConfig(p, now, r.target, r.params["key"].text, r.params["value"])
    else if r.kind == "restart_service" then p.(services := p.services[r.target := service.(restarts := service.restarts + 1)])
    else if r.kind == "failover_dependency" then
      p.(dependencies := p.dependencies[r.params["dependency_key"].text := Dependency(r.params["to_service"].text, true)])
    else if r.kind == "scale_service" then
      p.(services := p.services[r.target := service.(capacity := r.params["capacity_units"].AsInt())])
    else if r.kind == "throttle_traffic" then
      WithConfig(p, now, r.target, "traffic_limit_percent", r.params["traffic_percent"])
    else p
  }

  // ---- apply_action ---------------------------------------------------------------

  predicate Accepted(w: World, id: int, r: Request) {
    && id in w.incidents && w.incidents[id].status != Resolved
    && r.target in w.platform.services && Executable(w.platform, r)
  }

  predicate IsExpected(w: World, oracle: Oracle, id: int, r: Request)
    requires id in w.incidents && w.incidents[id].service in w.platform.services
  {
    var required := oracle(id).required;
    w.incidents[id].step < |required| && Matches(required[w.incidents[id].step], w.incidents[id], w.platform.services, r)
  }

  function FailedOrders(id: int, now: int, count: nat): seq<Order> {
    seq(count, i => Order(id, now + i))
  }

  function Clear(w: World, id: int): map<int, Alert> {
    map a | a in w.alerts :: if w.alerts[a].incidentId == id && w.alerts[a].clearedAt == None
                             then w.alerts[a].(clearedAt := Some(w.now)) else w.alerts[a]
  }

  function Cleared(w: World, id: int): set<SloKey> {
    set a | a in w.alerts && w.alerts[a].incidentId == id && w.alerts[a].clearedAt == None
      :: SloKey(w.alerts[a].service, w.alerts[a].kind)
  }

  function Degrade(p: Platform, service: string, health: Health): Platform
    requires service in p.services
  {
    p.(services := p.services[service := p.services[service].(health := health)])
  }

  /** _resolve */
  function Settled(w: World, id: int): World
    requires id in w.incidents && w.incidents[id].service in w.platform.services
  {
    var i := w.incidents[id];
    w.(incidents := w.incidents[id := i.(status := Resolved, resolvedAt := Some(w.now), mttr := Some(w.now - i.openedAt))],
       platform := Degrade(w.platform, i.service, Healthy),
       alerts := Clear(w, id),
       breaching := w.breaching - Cleared(w, id))
  }

  /** Time passes, the step or the failed orders are booked, the action is logged. */
  function Noted(w: World, policy: Policy, id: int, r: Request, stable: Option<string>, hit: bool): World
    requires id in w.incidents
  {
    var now := w.now + if hit then policy.actionSeconds else policy.penaltySeconds;
    w.(now := now,
       incidents := if hit then w.incidents[id := w.incidents[id].(step := w.incidents[id].step + 1, status := Mitigating)]
                    else w.incidents,
       orders := w.orders + if hit then [] else FailedOrders(id, now, 2),
       actions := w.actions + [Logged(id, r, stable, hit, now)])
  }

  function Logged(id: int, r: Request, stable: Option<string>, hit: bool, now: int): Taken {
    Taken(id, r.kind, r.target, r.params, stable, if hit then Succeeded else NoEffectSeen, now)
  }

  function StableOf(w: World, id: int): Option<string>
    requires id in w.incidents && w.incidents[id].service in w.platform.services
  {
    w.platform.services[w.incidents[id].service].previousStable
  }

  /** The world after an accepted action, before the resolution check. */
  function Tried(w: World, oracle: Oracle, id: int, r: Request): World
    requires Accepted(w, id, r) && w.incidents[id].service in w.platform.services
  {
    Noted(w.(platform := Mutated(w.platform, w.now, r)), oracle(id), id, r, StableOf(w, id), IsExpected(w, oracle, id, r))
  }

  function Applied(w: World, oracle: Oracle, id: int, r: Request): World
    requires Accepted(w, id, r) && w.incidents[id].service in w.platform.services
  {
    var t := Tried(w, oracle, id, r);
    if t.incidents[id].step == |oracle(id).required| then Settled(t, id) else t
  }

  // ---- inject_next ------------------------------------------------------------------

  /** The twelve families by what they break. */
  datatype Fault =
    | BadDeploy(version: string)                                     // F1
    | PoolExhaustion(nearMiss: bool)                                 // F2
    | DependencyDown(dependency: string, failed: string)             // F3, F8, F9
    | Degradation                                                    // F4, F5, F6, F10
    | ConfigRegression(key: string, value: Value)                    // F7
    | DriverMigration(migrated: bool)                                // F11
    | TopologyMigration(dependency: string, failed: string, migrated: bool) // F12

  datatype Scenario = Scenario(id: int, at: int, service: string, sloKind: string, fault: Fault, failedOrders: nat)

  predicate WellFormed(w: World, s: Scenario) {
    && s.service in w.platform.services && s.id !in w.incidents && s.id !in w.alerts
    && match s.fault
       case DependencyDown(d, f) => d in w.platform.dependencies && f in w.platform.services
       case TopologyMigration(d, f, migrated) =>
         d in w.platform.dependencies && f in w.platform.services && (migrated ==> ONPREM_REPLICA in w.platform.services)
       case _ => true
  }

  const ONPREM_REPLICA := "cache-onprem-replica"

  /** current_config */
  predicate HasConfig(cs: seq<Config>, service: string, key: string) {
    exists i :: 0 <= i < |cs| && cs[i].service == service && cs[i].key == key && cs[i].validTo == None
  }

  function BrokenDependency(p: Platform, dependency: string, failed: string): Platform
    requires failed in p.services
  {
    Degrade(p.(dependencies := p.dependencies[dependency := Dependency(failed, false)]), failed, Down)
  }

  function Faulted(w: World, s: Scenario, now: int): Platform
    requires WellFormed(w, s)
  {
    var p := w.platform;
    match s.fault
    case BadDeploy(version) =>
      var service := p.services[s.service];
      p.(services := p.services[s.service := service.(previousStable := Some(service.version), version := version, health := Degraded)],
         deployments := p.deployments + [Deployment(s.service, version, false, now, false)])
    case DependencyDown(d, f) => Degrade(BrokenDependency(p, d, f), s.service, Degraded)
    case ConfigRegression(key, value) => Degrade(WithConfig(p, now, s.service, key, value), s.service, Degraded)
    case DriverMigration(migrated) =>
      Degrade(if migrated then WithConfig(p, now, s.service, "pool_driver", Text("multiplexed")) else p, s.service, Degraded)
    case TopologyMigration(d, f, migrated) =>
      var m := if migrated
               then Degrade(WithConfig(p, now, s.service, "cache_failover_target", Text("cache-managed-primary")), ONPREM_REPLICA, Down)
               else p;
      Degrade(BrokenDependency(m, d, f), s.service, Degraded)
    case _ => Degrade(p, s.service, Degraded)
  }

  function Opened(w: World, s: Scenario): World {
    w.(incidents := w.incidents[s.id := Incident(s.service, Open, w.now, None, None, 0)],
       breaching := w.breaching + {SloKey(s.service, s.sloKind)},
       alerts := w.alerts[s.id := Alert(s.id, s.service, s.sloKind, None)],
       orders := w.orders + FailedOrders(s.id, w.now, s.failedOrders))
  }

  /** The scenario names what exists; a pool exhaustion needs a db_pool_size to speak of. */
  predicate Injectable(w: World, s: Scenario) {
    WellFormed(w, s) && (s.fault == PoolExhaustion(false) ==> HasConfig(w.platform.configs, s.service, "db_pool_size"))
  }

  function Injected(w: World, s: Scenario): World
    requires Injectable(w, s)
  {
    var now := if w.now < s.at then s.at else w.now;
    Opened(w.(now := now, platform := Faulted(w, s, now)), s)
  }

  /** A pool exhaustion of a service without a db_pool_size raises after the clock has moved and
      the service has been degraded. */
  function InjectionFailed(w: World, s: Scenario): World
    requires WellFormed(w, s)
  {
    w.(now := if w.now < s.at then s.at else w.now, platform := Degrade(w.platform, s.service, Degraded))
  }

  // ---- Commands and runs ----------------------------------------------------------------

  datatype Command = Inject(scenario: Scenario) | Advance(seconds: int) | Apply(incidentId: int, request: Request)

  predicate Sited(w: World) {
    forall i :: i in w.incidents ==> w.incidents[i].service in w.platform.services
  }

  /** An action or a clock move the conductor refuses raises SimulationError and changes
      nothing. A scenario that names what the world lacks is not injected. */
  function Next(w: World, oracle: Oracle, c: Command): World
    requires Sited(w)
  {
    match c
    case Inject(s) =>
      if Injectable(w, s) then Injected(w, s) else if WellFormed(w, s) then InjectionFailed(w, s) else w
    case Advance(n) => if n < 0 then w else w.(now := w.now + n)
    case Apply(id, r) => if Accepted(w, id, r) then Applied(w, oracle, id, r) else w
  }

  lemma MutatedKeeps(p: Platform, now: int, r: Request)
    requires r.target in p.services && Executable(p, r)
    ensures Mutated(p, now, r).services.Keys == p.services.Keys
  {}

  lemma FaultedKeeps(w: World, s: Scenario, now: int)
    requires WellFormed(w, s)
    ensures Faulted(w, s, now).services.Keys == w.platform.services.Keys
  {}

  lemma AppliedKeeps(w: World, oracle: Oracle, id: int, r: Request)
    requires Accepted(w, id, r) && w.incidents[id].service in w.platform.services
    ensures var u := Applied(w, oracle, id, r);
            && u.platform.services.Keys == w.platform.services.Keys
            && u.incidents.Keys == w.incidents.Keys
            && (forall i :: i in w.incidents ==> u.incidents[i].service == w.incidents[i].service)
            && w.now <= u.now
  {
    MutatedKeeps(w.platform, w.now, r);
  }

  lemma InjectedKeeps(w: World, s: Scenario)
    requires Injectable(w, s)
    ensures Injected(w, s).platform.services.Keys == w.platform.services.Keys
  {
    FaultedKeeps(w, s, if w.now < s.at then s.at else w.now);
  }

  lemma NextIsSited(w: World, oracle: Oracle, c: Command)
    requires Sited(w)
    ensures Sited(Next(w, oracle, c))
    ensures w.now <= Next(w, oracle, c).now
  {
    match c
    case Inject(s) => if Injectable(w, s) { InjectedKeeps(w, s); }
    case Advance(_) =>
    case Apply(id, r) => if Accepted(w, id, r) { AppliedKeeps(w, oracle, id, r); }
  }

  function Run(w: World, oracle: Oracle, cs: seq<Command>): (r: World)
    requires Sited(w)
    ensures Sited(r)
  {
    if cs == [] then w
    else
      NextIsSited(Run(w, oracle, cs[..|cs| - 1]), oracle, cs[|cs| - 1]);
      Next(Run(w, oracle, cs[..|cs| - 1]), oracle, cs[|cs| - 1])
  }
}
