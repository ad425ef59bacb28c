/** What holds of the simulated world over whole runs, and the accounting of one incident in an
    evaluation arm (evaluation/postmortem_eval/runner.py:174-260, real_agent.py:467-489). */
module SimulatorRuns {
  import opened Contracts
  import opened Simulator

  // ---- Successful actions follow the required plan ---------------------------------

  function Successes(actions: seq<Taken>, id: int): seq<Taken> {
    if actions == [] then []
    else
      var front := Successes(actions[..|actions| - 1], id);
      var last := actions[|actions| - 1];
      if last.incidentId == id && last.outcome == Succeeded then front + [last] else front
  }

  /** All actions of an incident. */
  function Mine(actions: seq<Taken>, id: int): seq<Taken> {
    if actions == [] then []
    else
      var front := Mine(actions[..|actions| - 1], id);
      if actions[|actions| - 1].incidentId == id then front + [actions[|actions| - 1]] else front
  }

  /** The logged action does what the plan's entry asks for: action, target and parameters. */
  predicate Carries(e: Expected, service: string, a: Taken) {
    Meets(e, service, a.stable, a.kind, a.target, a.params)
  }

  predicate Timed(i: Incident) {
    && (i.status == Resolved ==> i.mttr.Some? && i.resolvedAt == Some(i.openedAt + i.mttr.value))
    && (i.status != Resolved ==> i.mttr == None && i.resolvedAt == None)
  }

  predicate Progress(i: Incident, length: nat) {
    && i.step <= length
    && (i.status == Resolved <==> i.step == length)
    && (i.status == Open <==> i.step == 0)
  }

  ghost predicate Followed(required: seq<Expected>, i: Incident, done: seq<Taken>) {
    && Progress(i, |required|)
    && |done| == i.step
    && forall k :: 0 <= k < i.step ==> Carries(required[k], i.service, done[k])
  }

  /** Without a plan: open and untouched, or resolved by one action that had no effect. */
  predicate Drifted(i: Incident, mine: seq<Taken>) {
    && i.step == 0
    && (if i.status == Open then mine == []
        else i.status == Resolved && |mine| == 1 && mine[0].outcome == NoEffectSeen)
  }

  /** The action that resolved the incident succeeded. */
  predicate ClosedBySuccess(i: Incident, mine: seq<Taken>) {
    i.status == Resolved ==> mine != [] && mine[|mine| - 1].outcome == Succeeded
  }

  ghost predicate PlanKept(required: seq<Expected>, i: Incident, actions: seq<Taken>, id: int) {
    && Timed(i)
    && if required != [] then Followed(required, i, Successes(actions, id)) && ClosedBySuccess(i, Mine(actions, id))
       else Drifted(i, Mine(actions, id))
  }

  ghost predicate PlansFollowed(w: World, oracle: Oracle) {
    && (forall id :: id in w.incidents ==> PlanKept(oracle(id).required, w.incidents[id], w.actions, id))
    && (forall k :: 0 <= k < |w.actions| ==> w.actions[k].incidentId in w.incidents)
  }

  lemma LogGrows(actions: seq<Taken>, a: Taken, id: int)
    ensures Successes(actions + [a], id)
         == Successes(actions, id) + if a.incidentId == id && a.outcome == Succeeded then [a] else []
    ensures Mine(actions + [a], id) == Mine(actions, id) + if a.incidentId == id then [a] else []
  {
    assert (actions + [a])[..|actions|] == actions;
  }

  lemma {:induction false} NoneOfMine(actions: seq<Taken>, id: int)
    requires forall k :: 0 <= k < |actions| ==> actions[k].incidentId != id
    ensures Successes(actions, id) == [] && Mine(actions, id) == []
  {
    if actions != [] { NoneOfMine(actions[..|actions| - 1], id); }
  }

  lemma InjectKeepsPlans(w: World, oracle: Oracle, s: Scenario)
    requires PlansFollowed(w, oracle) && Injectable(w, s)
    ensures PlansFollowed(Injected(w, s), oracle)
  {
    forall k | 0 <= k < |w.actions| ensures w.actions[k].incidentId != s.id {}
    NoneOfMine(w.actions, s.id);
  }

  lemma HitFollows(required: seq<Expected>, i: Incident, done: seq<Taken>, a: Taken, now: int)
    requires required != [] && Followed(required, i, done) && i.step < |required|
    requires Carries(required[i.step], i.service, a)
    ensures var moved := i.(step := i.step + 1, status := Mitigating);
            Followed(required, if i.step + 1 == |required| then Closed(moved, now) else moved, done + [a])
  {}

  function Closed(i: Incident, now: int): Incident {
    i.(status := Resolved, resolvedAt := Some(now), mttr := Some(now - i.openedAt))
  }

  lemma OwnPlanKept(w: World, oracle: Oracle, id: int, r: Request)
    requires Accepted(w, id, r) && w.incidents[id].service in w.platform.services
    requires PlanKept(oracle(id).required, w.incidents[id], w.actions, id)
    ensures var u := Applied(w, oracle, id, r);
            id in u.incidents && PlanKept(oracle(id).required, u.incidents[id], u.actions, id)
  {
    var u := Applied(w, oracle, id, r);
    var i := w.incidents[id];
    var required := oracle(id).required;
    var a := Logged(id, r, StableOf(w, id), IsExpected(w, oracle, id, r), u.now);
    assert u.actions == w.actions + [a];
    LogGrows(w.actions, a, id);
    if IsExpected(w, oracle, id, r) {
      HitFollows(required, i, Successes(w.actions, id), a, u.now);
    }
  }

  lemma OtherPlanKept(w: World, oracle: Oracle, id: int, r: Request, j: int)
    requires Accepted(w, id, r) && w.incidents[id].service in w.platform.services
    requires j in w.incidents && j != id && PlanKept(oracle(j).required, w.incidents[j], w.actions, j)
    ensures var u := Applied(w, oracle, id, r);
            j in u.incidents && PlanKept(oracle(j).required, u.incidents[j], u.actions, j)
  {
    var u := Applied(w, oracle, id, r);
    LogGrows(w.actions, Logged(id, r, StableOf(w, id), IsExpected(w, oracle, id, r), u.now), j);
  }

  lemma ApplyKeepsPlans(w: World, oracle: Oracle, id: int, r: Request)
    requires PlansFollowed(w, oracle)
    requires Accepted(w, id, r) && w.incidents[id].service in w.platform.services
    ensures PlansFollowed(Applied(w, oracle, id, r), oracle)
  {
    var u := Applied(w, oracle, id, r);
    forall j | j in w.incidents ensures j in u.incidents && PlanKept(oracle(j).required, u.incidents[j], u.actions, j) {
      if j == id { OwnPlanKept(w, oracle, id, r); } else { OtherPlanKept(w, oracle, id, r, j); }
    }
    ActionsOfIncidents(w, oracle, id, r);
  }

  lemma ActionsOfIncidents(w: World, oracle: Oracle, id: int, r: Request)
    requires Accepted(w, id, r) && w.incidents[id].service in w.platform.services
    requires forall k :: 0 <= k < |w.actions| ==> w.actions[k].incidentId in w.incidents
    ensures var u := Applied(w, oracle, id, r);
            && u.incidents.Keys == w.incidents.Keys
            && forall k :: 0 <= k < |u.actions| ==> u.actions[k].incidentId in u.incidents
  {}

  ghost predicate Fresh(w: World) {
    w.incidents == map[] && w.actions == [] && w.orders == []
  }

  /** After any run, for every incident with a plan: its successful actions carry out a prefix
      of the plan, in order, with the parameters it asks for, and it is resolved exactly when
      that prefix is the whole plan. An incident without a plan drifts. */
  lemma {:induction false} PlansAreFollowed(w: World, oracle: Oracle, cs: seq<Command>)
    requires Fresh(w)
    ensures Sited(w) && PlansFollowed(Run(w, oracle, cs), oracle)
  {
    if cs != [] {
      PlansAreFollowed(w, oracle, cs[..|cs| - 1]);
      StepKeepsPlans(Run(w, oracle, cs[..|cs| - 1]), oracle, cs[|cs| - 1]);
    }
  }

  lemma StepKeepsPlans(t: World, oracle: Oracle, c: Command)
    requires Sited(t) && PlansFollowed(t, oracle)
    ensures PlansFollowed(Next(t, oracle, c), oracle)
  {
    match c
    case Inject(s) => if Injectable(t, s) { InjectKeepsPlans(t, oracle, s); }
    case Advance(_) =>
    case Apply(id, r) => if Accepted(t, id, r) { ApplyKeepsPlans(t, oracle, id, r); }
  }

  /** In every run, once the incident is resolved, the action that resolved it, the last one
      taken on it, had succeeded. */
  ghost predicate AlwaysClosedBySuccess(w: World, oracle: Oracle, id: int)
    requires Sited(w)
  {
    forall cs :: var u := Run(w, oracle, cs);
                 id in u.incidents ==> ClosedBySuccess(u.incidents[id], Mine(u.actions, id))
  }

  /** A restart of the incident's own service is always accepted. */
  function RestartOf(s: Scenario): Request { Request("restart_service", s.service, map[]) }

  /** One injection and one accepted action. */
  lemma ActedOnce(w: World, oracle: Oracle, s: Scenario, r: Request)
    requires Fresh(w) && Injectable(w, s) && Accepted(Injected(w, s), s.id, r)
    ensures Sited(w)
    ensures Run(w, oracle, [Inject(s), Apply(s.id, r)]) == Applied(Injected(w, s), oracle, s.id, r)
  {
    var cs := [Inject(s), Apply(s.id, r)];
    assert cs[..1] == [Inject(s)] && [Inject(s)][..0] == [];
    assert Run(w, oracle, []) == w;
    assert Run(w, oracle, [Inject(s)]) == Injected(w, s);
  }

  /** Without a plan, the first accepted action resolves the incident without success. */
  lemma EmptyPlanClosesWithoutSuccess(w: World, oracle: Oracle, s: Scenario, r: Request)
    requires Fresh(w) && Injectable(w, s) && Accepted(Injected(w, s), s.id, r) && oracle(s.id).required == []
    ensures Sited(w)
    ensures var u := Run(w, oracle, [Inject(s), Apply(s.id, r)]);
            s.id in u.incidents && !ClosedBySuccess(u.incidents[s.id], Mine(u.actions, s.id))
  {
    ActedOnce(w, oracle, s, r);
    var t := Injected(w, s);
    EmptyPlanResolvesOnAnything(t, oracle, s.id, r);
    LogGrows(t.actions, Logged(s.id, r, StableOf(t, s.id), false, Applied(t, oracle, s.id, r).now), s.id);
  }

  /** In every run a resolved incident was resolved by a success, if and only if its required
      list is not empty. */
  lemma ResolvedBySuccessIff(w: World, oracle: Oracle, s: Scenario)
    requires Fresh(w) && Injectable(w, s)
    ensures Sited(w) && (AlwaysClosedBySuccess(w, oracle, s.id) <==> oracle(s.id).required != [])
  {
    if oracle(s.id).required != [] {
      forall cs ensures var u := Run(w, oracle, cs);
                        s.id in u.incidents ==> ClosedBySuccess(u.incidents[s.id], Mine(u.actions, s.id))
      {
        PlansAreFollowed(w, oracle, cs);
      }
    } else {
      EmptyPlanClosesWithoutSuccess(w, oracle, s, RestartOf(s));
    }
  }

  /** With an empty list the first accepted action, whatever it is, counts as wrong and
      resolves the incident. */
  lemma EmptyPlanResolvesOnAnything(w: World, oracle: Oracle, id: int, r: Request)
    requires Accepted(w, id, r) && w.incidents[id].service in w.platform.services
    requires oracle(id).required == [] && w.incidents[id].step == 0
    ensures var u := Applied(w, oracle, id, r);
            && u.incidents[id].status == Resolved
            && u.actions == w.actions + [Logged(id, r, StableOf(w, id), false, u.now)]
  {}

  // ---- Configuration history ---------------------------------------------------------

  function OfKey(cs: seq<Config>, service: string, key: string): seq<Config> {
    if cs == [] then []
    else
      var front := OfKey(cs[..|cs| - 1], service, key);
      var last := cs[|cs| - 1];
      if last.service == service && last.key == key then front + [last] else front
  }

  /** Revisions of one key tile time up to now: each starts when the one before it ended, and
      only the last is open. */
  predicate Tiled(c: seq<Config>, now: int) {
    && (forall i :: 0 <= i < |c| ==> c[i].validFrom <= now && (c[i].validTo == None <==> i == |c| - 1))
    && (forall i :: 0 <= i < |c| - 1 ==> c[i].validTo == Some(c[i + 1].validFrom) && c[i].validFrom <= c[i + 1].validFrom)
  }

  ghost predicate ConfigsTiled(cs: seq<Config>, now: int) {
    forall service, key :: Tiled(OfKey(cs, service, key), now)
  }

  lemma OfKeyAppend(cs: seq<Config>, c: Config, service: string, key: string)
    ensures OfKey(cs + [c], service, key) == OfKey(cs, service, key) + if c.service == service && c.key == key then [c] else []
  {
    assert (cs + [c])[..|cs|] == cs;
  }

  function LastClosed(c: seq<Config>, now: int): seq<Config> {
    if c == [] then [] else c[..|c| - 1] + [c[|c| - 1].(validTo := Some(now))]
  }

  lemma {:induction false} ClosedCurrentOfKey(cs: seq<Config>, service: string, key: string, now: int, s: string, k: string)
    requires var c := OfKey(cs, service, key); forall i :: 0 <= i < |c| ==> (c[i].validTo == None <==> i == |c| - 1)
    ensures OfKey(ClosedCurrent(cs, service, key, now), s, k)
         == if s == service && k == key then LastClosed(OfKey(cs, s, k), now) else OfKey(cs, s, k)
  {
    if cs != [] {
      var front := cs[..|cs| - 1];
      var last := cs[|cs| - 1];
      assert cs == front + [last];
      OfKeyAppend(front, last, s, k);
      OfKeyAppend(front, last, service, key);
      if last.service == service && last.key == key {
        var c := OfKey(front, service, key);
        assert OfKey(cs, service, key)[|c|] == last;
        OfKeyAppend(front, last.(validTo := Some(now)), s, k);
      } else {
        ClosedCurrentOfKey(front, service, key, now, s, k);
        OfKeyAppend(ClosedCurrent(front, service, key, now), last, s, k);
      }
    }
  }

  lemma TilingGrows(c: seq<Config>, now: int, added: Config)
    requires Tiled(c, now) && added.validFrom == now && added.validTo == None
    ensures Tiled(LastClosed(c, now) + [added], now)
  {}

  lemma SetConfigOfKey(cs: seq<Config>, now: int, service: string, key: string, value: Value, s: string, k: string)
    requires Tiled(OfKey(cs, service, key), now)
    ensures OfKey(SetConfig(cs, now, service, key, value), s, k)
         == if s == service && k == key then LastClosed(OfKey(cs, s, k), now) + [Config(service, key, value, now, None)]
            else OfKey(cs, s, k)
  {
    ClosedCurrentOfKey(cs, service, key, now, s, k);
    OfKeyAppend(ClosedCurrent(cs, service, key, now), Config(service, key, value, now, None), s, k);
  }

  /** _set_config extends one key's tiling and leaves the others alone. */
  lemma SetConfigKeepsTiling(cs: seq<Config>, now: int, service: string, key: string, value: Value)
    requires ConfigsTiled(cs, now)
    ensures ConfigsTiled(SetConfig(cs, now, service, key, value), now)
  {
    forall s, k ensures Tiled(OfKey(SetConfig(cs, now, service, key, value), s, k), now) {
      assert Tiled(OfKey(cs, service, key), now) && Tiled(OfKey(cs, s, k), now);
      SetConfigOfKey(cs, now, service, key, value, s, k);
      TilingGrows(OfKey(cs, service, key), now, Config(service, key, value, now, None));
    }
  }

  lemma LaterIsTiled(cs: seq<Config>, now: int, later: int)
    requires ConfigsTiled(cs, now) && now <= later
    ensures ConfigsTiled(cs, later)
  {
    forall s, k ensures Tiled(OfKey(cs, s, k), later) { assert Tiled(OfKey(cs, s, k), now); }
  }

  lemma MutatedStaysTiled(p: Platform, now: int, r: Request)
    requires r.target in p.services && Executable(p, r) && ConfigsTiled(p.configs, now)
    ensures ConfigsTiled(Mutated(p, now, r).configs, now)
  {
    if r.kind == "set_config" {
      SetConfigKeepsTiling(p.configs, now, r.target, r.params["key"].text, r.params["value"]);
    } else if r.kind == "throttle_traffic" {
      SetConfigKeepsTiling(p.configs, now, r.target, "traffic_limit_percent", r.params["traffic_percent"]);
    }
  }

  lemma FaultedStaysTiled(w: World, s: Scenario, now: int)
    requires WellFormed(w, s) && ConfigsTiled(w.platform.configs, now)
    ensures ConfigsTiled(Faulted(w, s, now).configs, now)
  {
    match s.fault
    case ConfigRegression(key, value) => SetConfigKeepsTiling(w.platform.configs, now, s.service, key, value);
    case DriverMigration(_) => SetConfigKeepsTiling(w.platform.configs, now, s.service, "pool_driver", Text("multiplexed"));
    case TopologyMigration(_, _, _) =>
      SetConfigKeepsTiling(w.platform.configs, now, s.service, "cache_failover_target", Text("cache-managed-primary"));
    case _ =>
  }

  /** The simulator's monotone clock keeps every configuration history tiled. */
  lemma {:induction false} HistoriesStayTiled(w: World, oracle: Oracle, cs: seq<Command>)
    requires Sited(w) && ConfigsTiled(w.platform.configs, w.now)
    ensures var t := Run(w, oracle, cs); ConfigsTiled(t.platform.configs, t.now)
  {
    if cs != [] {
      HistoriesStayTiled(w, oracle, cs[..|cs| - 1]);
      StepStaysTiled(Run(w, oracle, cs[..|cs| - 1]), oracle, cs[|cs| - 1]);
    }
  }

  lemma StepStaysTiled(t: World, oracle: Oracle, c: Command)
    requires Sited(t) && ConfigsTiled(t.platform.configs, t.now)
    ensures var u := Next(t, oracle, c); ConfigsTiled(u.platform.configs, u.now)
  {
    var u := Next(t, oracle, c);
    NextIsSited(t, oracle, c);
    match c
    case Inject(s) =>
      if Injectable(t, s) {
        LaterIsTiled(t.platform.configs, t.now, u.now);
        FaultedStaysTiled(t, s, u.now);
      }
    case Advance(_) => LaterIsTiled(t.platform.configs, t.now, u.now);
    case Apply(id, r) =>
      if Accepted(t, id, r) {
        MutatedStaysTiled(t.platform, t.now, r);
        LaterIsTiled(u.platform.configs, t.now, u.now);
      }
  }

  // ---- One incident of an arm -----------------------------------------------------------

  datatype Replayed = Replayed(world: World, outcomes: seq<Outcome>, invalid: nat)

  /** The action loop of an arm: skip what the conductor refuses, stop at resolution. */
  function Replay(w: World, oracle: Oracle, id: int, plan: seq<Request>): Replayed
    requires Sited(w)
    decreases plan
  {
    if plan == [] then Replayed(w, [], 0)
    else if !Accepted(w, id, plan[0]) then
      var rest := Replay(w, oracle, id, plan[1..]);
      rest.(invalid := rest.invalid + 1)
    else
      AppliedKeeps(w, oracle, id, plan[0]);
      var outcome := if IsExpected(w, oracle, id, plan[0]) then Succeeded else NoEffectSeen;
      var u := Applied(w, oracle, id, plan[0]);
      if u.incidents[id].step == |oracle(id).required| then Replayed(u, [outcome], 0)
      else
        var rest := Replay(u, oracle, id, plan[1..]);
        Replayed(rest.world, [outcome] + rest.outcomes, rest.invalid)
  }

  function Count(outcomes: seq<Outcome>, o: Outcome): nat {
    if outcomes == [] then 0 else (if outcomes[0] == o then 1 else 0) + Count(outcomes[1..], o)
  }

  /** orders grew by n, all of them of this incident. */
  predicate Grew(before: seq<Order>, after: seq<Order>, id: int, n: nat) {
    && before <= after && |after| == |before| + n
    && forall k :: |before| <= k < |after| ==> after[k].incidentId == id
  }

  /** So did the action log. */
  predicate Acted(before: seq<Taken>, after: seq<Taken>, id: int, n: nat) {
    && before <= after && |after| == |before| + n
    && forall k :: |before| <= k < |after| ==> after[k].incidentId == id
  }

  ghost predicate Unresolved(w: World, oracle: Oracle, id: int) {
    && Sited(w) && id in w.incidents
    && w.incidents[id].status != Resolved && w.incidents[id].step < |oracle(id).required|
  }

  /** Time, steps, orders and actions of a replay, from its outcomes alone. */
  ghost predicate Accounted(w: World, oracle: Oracle, id: int, r: Replayed) {
    var s := Count(r.outcomes, Succeeded);
    var x := Count(r.outcomes, NoEffectSeen);
    var p := oracle(id);
    && id in w.incidents && id in r.world.incidents
    && var i, j := w.incidents[id], r.world.incidents[id];
       && r.world.now == w.now + s * p.actionSeconds + x * p.penaltySeconds
       && j.step == i.step + s && j.step <= |p.required| && j.openedAt == i.openedAt
       && (j.status == Resolved <==> j.step == |p.required|)
       && (j.status == Resolved ==> j.mttr == Some(r.world.now - j.openedAt))
       && (j.status != Resolved ==> j.mttr == i.mttr)
       && Grew(w.orders, r.world.orders, id, 2 * x)
       && Acted(w.actions, r.world.actions, id, |r.outcomes|)
       && |r.outcomes| == s + x
  }

  lemma OneActionAccounts(w: World, oracle: Oracle, id: int, r: Request)
    requires Unresolved(w, oracle, id) && Accepted(w, id, r)
    ensures var outcome := if IsExpected(w, oracle, id, r) then Succeeded else NoEffectSeen;
            Accounted(w, oracle, id, Replayed(Applied(w, oracle, id, r), [outcome], 0))
  {
    var outcome := if IsExpected(w, oracle, id, r) then Succeeded else NoEffectSeen;
    CountOne(outcome, Succeeded);
    CountOne(outcome, NoEffectSeen);
  }

  lemma CountOne(o: Outcome, x: Outcome)
    ensures Count([o], x) == if o == x then 1 else 0
  {
    assert [o][1..] == [];
  }

  lemma AccountsAdd(w: World, oracle: Oracle, id: int, u: World, o: Outcome, rest: Replayed)
    requires Accounted(w, oracle, id, Replayed(u, [o], 0))
    requires Accounted(u, oracle, id, rest)
    requires u.incidents[id].status != Resolved
    ensures Accounted(w, oracle, id, Replayed(rest.world, [o] + rest.outcomes, rest.invalid))
  {
    var all := [o] + rest.outcomes;
    assert all[1..] == rest.outcomes;
    CountOne(o, Succeeded);
    CountOne(o, NoEffectSeen);
    Distribute(Count([o], Succeeded), Count(rest.outcomes, Succeeded), oracle(id).actionSeconds);
    Distribute(Count([o], NoEffectSeen), Count(rest.outcomes, NoEffectSeen), oracle(id).penaltySeconds);
  }

  lemma Distribute(a: nat, b: nat, c: nat)
    ensures (a + b) * c == a * c + b * c
  {}

  lemma {:induction false} ReplayAccounts(w: World, oracle: Oracle, id: int, plan: seq<Request>)
    requires Unresolved(w, oracle, id)
    ensures Accounted(w, oracle, id, Replay(w, oracle, id, plan))
    decreases plan
  {
    if plan == [] {
    } else if !Accepted(w, id, plan[0]) {
      ReplayAccounts(w, oracle, id, plan[1..]);
    } else {
      OneActionAccounts(w, oracle, id, plan[0]);
      AppliedKeeps(w, oracle, id, plan[0]);
      var u := Applied(w, oracle, id, plan[0]);
      if u.incidents[id].step != |oracle(id).required| {
        ReplayAccounts(u, oracle, id, plan[1..]);
        var outcome := if IsExpected(w, oracle, id, plan[0]) then Succeeded else NoEffectSeen;
        AccountsAdd(w, oracle, id, u, outcome, Replay(u, oracle, id, plan[1..]));
      }
    }
  }

  /** One incident of an arm: inject, think, act. */
  function Arm(w: World, oracle: Oracle, s: Scenario, thinking: nat, plan: seq<Request>): Replayed
    requires Sited(w) && Injectable(w, s)
  {
    InjectedKeeps(w, s);
    var t := Injected(w, s);
    Replay(t.(now := t.now + thinking), oracle, s.id, plan)
  }

  /** What a fresh incident looks like when its arm starts to act. */
  lemma ArmStart(w: World, oracle: Oracle, s: Scenario, thinking: nat)
    requires Sited(w) && Injectable(w, s) && oracle(s.id).required != []
    ensures var t := Injected(w, s);
            var u := t.(now := t.now + thinking);
            && Unresolved(u, oracle, s.id)
            && u.incidents[s.id] == Incident(s.service, Open, t.now, None, None, 0)
            && u.now == t.now + thinking
            && Grew(w.orders, u.orders, s.id, s.failedOrders) && u.actions == w.actions
  {
    InjectedKeeps(w, s);
  }

  lemma GrewTwice(a: seq<Order>, b: seq<Order>, c: seq<Order>, id: int, m: nat, n: nat)
    requires Grew(a, b, id, m) && Grew(b, c, id, n)
    ensures Grew(a, c, id, m + n)
  {}

  /** Resolved exactly when every required step succeeded; then the MTTR is the thinking time,
      one action time per required step and one penalty per wrong action. */
  predicate MttrIs(p: Policy, thinking: nat, i: Incident, outcomes: seq<Outcome>) {
    && (i.status == Resolved <==> Count(outcomes, Succeeded) == |p.required|)
    && (i.status == Resolved ==>
          i.mttr == Some(thinking + |p.required| * p.actionSeconds + Count(outcomes, NoEffectSeen) * p.penaltySeconds))
    && (i.status != Resolved ==> i.mttr == None)
  }

  lemma MttrOf(u: World, oracle: Oracle, id: int, start: int, thinking: nat, r: Replayed)
    requires Accounted(u, oracle, id, r)
    requires u.now == start + thinking && u.incidents[id].openedAt == start
    requires u.incidents[id].step == 0 && u.incidents[id].mttr == None
    ensures MttrIs(oracle(id), thinking, r.world.incidents[id], r.outcomes)
  {}

  /** The accounting of one incident of an arm: its MTTR, and the scenario's failed orders plus
      two for every wrong action. */
  lemma MttrFormula(w: World, oracle: Oracle, s: Scenario, thinking: nat, plan: seq<Request>)
    requires Sited(w) && Injectable(w, s) && oracle(s.id).required != []
    ensures ArmAddsUp(w, oracle, s, thinking, Arm(w, oracle, s, thinking, plan))
  {
    var t := Injected(w, s);
    var u := t.(now := t.now + thinking);
    ArmStart(w, oracle, s, thinking);
    ArmIs(w, u, oracle, s, thinking, plan);
    ActingAccounts(w, u, oracle, s, t.now, thinking, plan);
  }

  predicate ArmAddsUp(w: World, oracle: Oracle, s: Scenario, thinking: nat, r: Replayed) {
    var wrong := Count(r.outcomes, NoEffectSeen);
    && s.id in r.world.incidents
    && MttrIs(oracle(s.id), thinking, r.world.incidents[s.id], r.outcomes)
    && Grew(w.orders, r.world.orders, s.id, s.failedOrders + 2 * wrong)
    && Acted(w.actions, r.world.actions, s.id, Count(r.outcomes, Succeeded) + wrong)
  }

  lemma ArmIs(w: World, u: World, oracle: Oracle, s: Scenario, thinking: nat, plan: seq<Request>)
    requires Sited(w) && Injectable(w, s) && Sited(u)
    requires u == Injected(w, s).(now := Injected(w, s).now + thinking)
    ensures Arm(w, oracle, s, thinking, plan) == Replay(u, oracle, s.id, plan)
  {}

  /** The same, from where the responder starts to act. */
  lemma ActingAccounts(w: World, u: World, oracle: Oracle, s: Scenario, start: int, thinking: nat, plan: seq<Request>)
    requires Unresolved(u, oracle, s.id)
    requires u.incidents[s.id] == Incident(s.service, Open, start, None, None, 0) && u.now == start + thinking
    requires Grew(w.orders, u.orders, s.id, s.failedOrders) && u.actions == w.actions
    ensures ArmAddsUp(w, oracle, s, thinking, Replay(u, oracle, s.id, plan))
  {
    ReplayAccounts(u, oracle, s.id, plan);
    ArmAccounts(w, u, oracle, s, start, thinking, Replay(u, oracle, s.id, plan));
  }

  lemma ArmAccounts(w: World, u: World, oracle: Oracle, s: Scenario, start: int, thinking: nat, r: Replayed)
    requires Accounted(u, oracle, s.id, r)
    requires u.incidents[s.id] == Incident(s.service, Open, start, None, None, 0) && u.now == start + thinking
    requires Grew(w.orders, u.orders, s.id, s.failedOrders) && u.actions == w.actions
    ensures MttrIs(oracle(s.id), thinking, r.world.incidents[s.id], r.outcomes)
    ensures Grew(w.orders, r.world.orders, s.id, s.failedOrders + 2 * Count(r.outcomes, NoEffectSeen))
    ensures Acted(w.actions, r.world.actions, s.id, Count(r.outcomes, Succeeded) + Count(r.outcomes, NoEffectSeen))
  {
    MttrOf(u, oracle, s.id, start, thinking, r);
    GrewTwice(w.orders, u.orders, r.world.orders, s.id, s.failedOrders, 2 * Count(r.outcomes, NoEffectSeen));
  }

  /** The plan without the actions the conductor refuses along the way. */
  function WithoutRefused(w: World, oracle: Oracle, id: int, plan: seq<Request>): seq<Request>
    requires Sited(w)
    decreases plan
  {
    if plan == [] then []
    else if !Accepted(w, id, plan[0]) then WithoutRefused(w, oracle, id, plan[1..])
    else
      AppliedKeeps(w, oracle, id, plan[0]);
      var u := Applied(w, oracle, id, plan[0]);
      [plan[0]] + if u.incidents[id].step == |oracle(id).required| then plan[1..] else WithoutRefused(u, oracle, id, plan[1..])
  }

  /** Deleting refused actions from a plan changes neither the final world nor the outcomes. */
  lemma {:induction false} RefusedActionsDoNotMatter(w: World, oracle: Oracle, id: int, plan: seq<Request>)
    requires Sited(w)
    ensures var all := Replay(w, oracle, id, plan);
            Replay(w, oracle, id, WithoutRefused(w, oracle, id, plan)) == Replayed(all.world, all.outcomes, 0)
    decreases plan
  {
    if plan == [] {
    } else if !Accepted(w, id, plan[0]) {
      RefusedActionsDoNotMatter(w, oracle, id, plan[1..]);
    } else {
      AppliedKeeps(w, oracle, id, plan[0]);
      var u := Applied(w, oracle, id, plan[0]);
      var kept := WithoutRefused(w, oracle, id, plan);
      if u.incidents[id].step == |oracle(id).required| {
        assert kept[0] == plan[0];
      } else {
        RefusedActionsDoNotMatter(u, oracle, id, plan[1..]);
        assert kept[0] == plan[0] && kept[1..] == WithoutRefused(u, oracle, id, plan[1..]);
      }
    }
  }
}
