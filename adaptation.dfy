/**
 * One adaptation pass (plan, adapt): the list of monitored services, the
 * per-service means and utilities, the first-match scaling rule, and the
 * plans executed against the live deployments.
 */
module Adaptation {
  import opened Wrappers
  import opened Lists
  import opened Metrics
  import opened Scoring
  import opened Tiers
  import opened Deployments

  /** The services the adapter may scale (`service_list`). */
  const ServiceList: seq<string> := [
    "acmeair-bookingservice",
    "acmeair-customerservice",
    "acmeair-flightservice",
    "acmeair-authservice",
    "acmeair-mainservice"
  ]

  /** What one pass does for one service. */
  datatype Action = ScaleDown | ScaleUp | Hold

  /**
   * The scaling rule, first match wins: full utility with cpu below 5
   * scales down, utility below 0.7 scales up, anything else holds.
   */
  function Decide(utility: real, cpuUsed: real): (action: Action)
    ensures action == ScaleDown <==> utility == 1.0 && cpuUsed < 5.0
    ensures action == ScaleUp <==> utility < 0.7
    ensures action == Hold <==> 0.7 <= utility && !(utility == 1.0 && cpuUsed < 5.0)
  {
    if utility == 1.0 && cpuUsed < 5.0 then ScaleDown
    else if utility < 0.7 then ScaleUp
    else Hold
  }

  /** The scaling rule restated on the means themselves. */
  lemma DecisionFromMeans(m: ServiceMeans, cpuUsed: real)
    requires Utility(m).Some?
    ensures Decide(Utility(m).value, cpuUsed) == ScaleDown <==>
              m.latency < 1000.0 && m.errorRate < 1.0 && cpuUsed < 5.0
    ensures Decide(Utility(m).value, cpuUsed) == ScaleUp <==>
              m.latency >= 1000.0 || m.errorRate > 3.0
    ensures Decide(Utility(m).value, cpuUsed) == Hold <==>
              m.latency < 1000.0 && m.errorRate < 3.0 && !(m.errorRate < 1.0 && cpuUsed < 5.0)
  {
  }

  /** The merged metric map is one a Python dict can be, and holds the three metrics a pass reads. */
  predicate Readable(metrics: MetricMap)
  {
    && WellFormed(metrics)
    && LatencyId in metrics.series
    && ErrorRateId in metrics.series
    && CpuUsedId in metrics.series
  }

  /** Every workload name of every metric, metric by metric, each metric's names in their order. */
  function NamesOf(ids: seq<string>, series: map<string, Series>): seq<string>
    requires forall id :: id in ids ==> id in series
  {
    if ids == [] then []
    else NamesOf(ids[..|ids| - 1], series) + series[ids[|ids| - 1]].names
  }

  /** The services of a pass: the workloads of `service_list` that the metrics name, in order of first mention. */
  function MonitoredServices(metrics: MetricMap): (services: seq<string>)
    requires forall id :: id in metrics.ids ==> id in metrics.series
    ensures NoDuplicates(services)
    ensures forall s :: s in services <==> s in ServiceList && s in NamesOf(metrics.ids, metrics.series)
  {
    Distinct(KeepIn(NamesOf(metrics.ids, metrics.series), set s | s in ServiceList))
  }

  /** Walks every metric's workloads and appends each listed service not yet seen. */
  method CollectServices(metrics: MetricMap) returns (services: seq<string>)
    requires forall id :: id in metrics.ids ==> id in metrics.series
    ensures services == MonitoredServices(metrics)
  {
    services := [];
    for i := 0 to |metrics.ids|
      invariant services == Distinct(KeepIn(NamesOf(metrics.ids[..i], metrics.series), set s | s in ServiceList))
    {
      NamesOfAppend(metrics.ids, i, metrics.series);
      services := AppendServices(services, metrics.series[metrics.ids[i]].names, NamesOf(metrics.ids[..i], metrics.series));
    }
    assert metrics.ids[..|metrics.ids|] == metrics.ids;
  }

  /** The inner loop of the services walk: appends each name of one metric that is listed and not yet seen. */
  method AppendServices(services: seq<string>, names: seq<string>, ghost seen: seq<string>) returns (extended: seq<string>)
    requires services == Distinct(KeepIn(seen, set s | s in ServiceList))
    ensures extended == Distinct(KeepIn(seen + names, set s | s in ServiceList))
  {
    ghost var allowed := set s | s in ServiceList;
    extended := services;
    assert seen + names[..0] == seen;
    for j := 0 to |names|
      invariant extended == Distinct(KeepIn(seen + names[..j], allowed))
    {
      var service := names[j];
      ghost var done := seen + names[..j];
      PrefixStep(seen, names, j);
      DistinctKeepInAppend(done, service, allowed);
      if service !in extended && service in ServiceList {
        extended := extended + [service];
      }
    }
    assert names[..|names|] == names;
  }

  lemma PrefixStep(seen: seq<string>, names: seq<string>, j: nat)
    requires j < |names|
    ensures seen + names[..j + 1] == (seen + names[..j]) + [names[j]]
  {
    assert names[..j + 1] == names[..j] + [names[j]];
  }

  lemma NamesOfAppend(ids: seq<string>, i: nat, series: map<string, Series>)
    requires i < |ids| && forall id :: id in ids ==> id in series
    ensures NamesOf(ids[..i + 1], series) == NamesOf(ids[..i], series) + series[ids[i]].names
  {
    assert ids[..i + 1][..i] == ids[..i];
  }

  /**
   * The means of one service as a pass records them: latency converted
   * from the metric's unit to milliseconds (divided by 10^6), the error
   * count, and the error count again in the 'cpu_used' entry.
   */
  function MeansOf(metrics: MetricMap, service: string): (m: ServiceMeans)
    requires Readable(metrics)
    ensures m.latency * 1000000.0 == MeanOrZero(SamplesOf(metrics, Latency, service))
    ensures m.errorRate == m.cpuUsed == MeanOrZero(SamplesOf(metrics, ErrorRate, service))
  {
    var errors := MeanOrZero(SamplesOf(metrics, ErrorRate, service));
    ServiceMeans(MeanOrZero(SamplesOf(metrics, Latency, service)) / 1000000.0, errors, errors)
  }

  /** The cpu figure the scaling rule reads: the mean of the cpu metric. */
  function CpuMean(metrics: MetricMap, service: string): (m: real)
    requires Readable(metrics)
    ensures SamplesOf(metrics, CpuUsed, service) == [] ==> m == 0.0
    ensures var xs := SamplesOf(metrics, CpuUsed, service); |xs| > 0 ==> m * (|xs| as real) == Sum(xs)
  {
    MeanOrZero(SamplesOf(metrics, CpuUsed, service))
  }

  function ActionOf(metrics: MetricMap, service: string): Action
    requires Readable(metrics) && Utility(MeansOf(metrics, service)).Some?
  {
    Decide(Utility(MeansOf(metrics, service)).value, CpuMean(metrics, service))
  }

  /** The plan for an action, found from the deployment's cpu and memory limits and its replicas. */
  function Proposal(action: Action, live: Resources): (plan: Option<Config>)
    ensures var current := Config(live.limitsCpu, live.limitsMemory, live.replicas);
            plan.None? <==> action == Hold || (action == ScaleDown && current == Catalog(C1))
    ensures plan.Some? ==> plan.value.cpu == "250m"
    ensures action == ScaleUp ==> plan.Some? && plan.value.memory == "500Mi"
  {
    match action
    case ScaleDown => FindNextConfiguration(live.limitsCpu, live.limitsMemory, live.replicas, true)
    case ScaleUp => FindNextConfiguration(live.limitsCpu, live.limitsMemory, live.replicas, false)
    case Hold => None
  }

  /** Reads a service's live deployment and finds the configuration to move to. */
  method Plan(cluster: Cluster, service: string, downScale: bool) returns (next: Option<Config>)
    requires service in cluster.deployments
    ensures next == Proposal(if downScale then ScaleDown else ScaleUp, cluster.deployments[service])
  {
    var obj := new Deployment.Select(cluster, service);
    next := FindNextConfiguration(obj.limitsCpu, obj.limitsMemory, obj.replicas, downScale);
  }

  /** The resources a deployment has after an action: the plan applied, or unchanged when there is none. */
  function After(action: Action, live: Resources): Resources
  {
    match Proposal(action, live)
    case Some(plan) => Applied(live, plan)
    case None => live
  }

  /**
   * Adapts one service: runs the scaling rule on its utility and cpu mean,
   * and executes the plan when there is one.
   */
  method AdaptService(cluster: Cluster, service: string, utility: real, cpuUsed: real) returns (executed: bool)
    requires service in cluster.deployments
    modifies cluster
    ensures executed <==> Proposal(Decide(utility, cpuUsed), old(cluster.deployments)[service]).Some?
    ensures cluster.deployments ==
              old(cluster.deployments)[service := After(Decide(utility, cpuUsed), old(cluster.deployments)[service])]
    ensures cluster.commits == old(cluster.commits) +
              (if executed then [Commit(service, After(Decide(utility, cpuUsed), old(cluster.deployments)[service]))] else [])
  {
    executed := false;
    if utility == 1.0 && cpuUsed < 5.0 {
      var executionPlan := Plan(cluster, service, true);
      if executionPlan.Some? {
        Execute(cluster, service, executionPlan.value);
        executed := true;
      }
    } else if utility < 0.7 {
      var executionPlan := Plan(cluster, service, false);
      if executionPlan.Some? {
        Execute(cluster, service, executionPlan.value);
        executed := true;
      }
    }
  }

  /** The action of every service of a pass, from the metrics. */
  function ActionsOf(metrics: MetricMap, services: seq<string>): map<string, Action>
    requires Readable(metrics)
    requires forall s :: s in services ==> Utility(MeansOf(metrics, s)).Some?
  {
    map s | s in services :: ActionOf(metrics, s)
  }

  /** The commits a pass makes, in service order, when every service starts from `live`. */
  function PlannedCommits(actions: map<string, Action>, live: map<string, Resources>, services: seq<string>): seq<Commit>
    requires forall s :: s in services ==> s in live && s in actions
  {
    if services == [] then []
    else
      var init, s := services[..|services| - 1], services[|services| - 1];
      PlannedCommits(actions, live, init) +
        if Proposal(actions[s], live[s]).Some? then [Commit(s, After(actions[s], live[s]))] else []
  }

  /** A pass commits something exactly when some service's action yields a plan. */
  lemma {:induction false} CommitsIffSomePlan(actions: map<string, Action>, live: map<string, Resources>, services: seq<string>)
    requires forall s :: s in services ==> s in live && s in actions
    ensures PlannedCommits(actions, live, services) != [] <==>
              exists s :: s in services && Proposal(actions[s], live[s]).Some?
  {
    if services != [] {
      var init, s := services[..|services| - 1], services[|services| - 1];
      assert services == init + [s];
      CommitsIffSomePlan(actions, live, init);
    }
  }

  /** The resources a service has after a pass over `services` that started from `live`. */
  function Outcome(actions: map<string, Action>, live: map<string, Resources>, services: seq<string>, service: string): Resources
    requires service in live
    requires service in services ==> service in actions
  {
    if service in services then After(actions[service], live[service]) else live[service]
  }

  /** The means of every service, and the cpu means the scaling rule reads. */
  method CollectMeans(metrics: MetricMap, services: seq<string>)
    returns (meansByService: map<string, ServiceMeans>, cpuUsedMeans: map<string, real>)
    requires Readable(metrics)
    ensures meansByService.Keys == cpuUsedMeans.Keys == (set s | s in services)
    ensures forall s :: s in meansByService ==> meansByService[s] == MeansOf(metrics, s)
    ensures forall s :: s in cpuUsedMeans ==> cpuUsedMeans[s] == CpuMean(metrics, s)
  {
    var latencyMeans := ComputeMeanByService(metrics, Latency, services);
    var errorRateMeans := ComputeMeanByService(metrics, ErrorRate, services);
    cpuUsedMeans := ComputeMeanByService(metrics, CpuUsed, services);
    meansByService := map[];
    for i := 0 to |services|
      invariant meansByService.Keys == (set s | s in services[..i])
      invariant forall s :: s in meansByService ==> meansByService[s] == MeansOf(metrics, s)
    {
      var s := services[i];
      meansByService := meansByService[s := ServiceMeans(latencyMeans[s] / 1000000.0, errorRateMeans[s], errorRateMeans[s])];
      assert services[..i + 1] == services[..i] + [s];
    }
    assert services[..|services|] == services;
  }

  /**
   * Adapts every service in order and tells whether any plan was executed.
   * `actions` is the action the scaling rule picks for each service; it is
   * ghost and only names, for the contract, what the loop decides.
   */
  method AdaptServices(cluster: Cluster, services: seq<string>,
                       utilities: map<string, real>, cpuUsedMeans: map<string, real>,
                       ghost actions: map<string, Action>)
    returns (shouldWait: bool)
    requires NoDuplicates(services)
    requires forall s :: s in services ==> s in cluster.deployments && s in utilities && s in cpuUsedMeans
    requires forall s :: s in services ==> s in actions && actions[s] == Decide(utilities[s], cpuUsedMeans[s])
    modifies cluster
    ensures cluster.commits == old(cluster.commits) + PlannedCommits(actions, old(cluster.deployments), services)
    ensures shouldWait <==> PlannedCommits(actions, old(cluster.deployments), services) != []
    ensures cluster.deployments.Keys == old(cluster.deployments).Keys
    ensures forall s :: s in old(cluster.deployments) ==>
              cluster.deployments[s] == Outcome(actions, old(cluster.deployments), services, s)
  {
    ghost var live := cluster.deployments;
    shouldWait := false;
    for i := 0 to |services|
      invariant cluster.deployments.Keys == live.Keys
      invariant forall s :: s in live ==> cluster.deployments[s] == Outcome(actions, live, services[..i], s)
      invariant cluster.commits == old(cluster.commits) + PlannedCommits(actions, live, services[..i])
      invariant shouldWait <==> PlannedCommits(actions, live, services[..i]) != []
    {
      var s := services[i];
      TakeOneMore(services, i);
      NotBefore(services, i);
      shouldWait := AdaptNext(cluster, actions, live, services[..i], old(cluster.commits), s, utilities[s], cpuUsedMeans[s], shouldWait);
    }
    assert services[..|services|] == services;
  }

  /**
   * The body of the loop of a pass, for the next service `s`: it adapts `s`
   * (decides, plans and executes as AdaptService does) and updates the wait
   * flag. The ghost parameters describe the pass so far: the actions of
   * every service, the live deployments before the pass, the services
   * already adapted, and the commit log before the pass. Given that the
   * cluster and the flag match the planned pass over `done`, they match the
   * planned pass over `done + [s]` afterwards.
   */
  method AdaptNext(cluster: Cluster, ghost actions: map<string, Action>, ghost live: map<string, Resources>,
                   ghost done: seq<string>, ghost base: seq<Commit>,
                   s: string, utility: real, cpuUsed: real, waiting: bool)
    returns (shouldWait: bool)
    requires s !in done && s in live && s in actions && actions[s] == Decide(utility, cpuUsed)
    requires forall u :: u in done ==> u in live && u in actions
    requires cluster.deployments.Keys == live.Keys
    requires forall u :: u in live ==> cluster.deployments[u] == Outcome(actions, live, done, u)
    requires cluster.commits == base + PlannedCommits(actions, live, done)
    requires waiting <==> PlannedCommits(actions, live, done) != []
    modifies cluster
    ensures cluster.deployments.Keys == live.Keys
    ensures forall u :: u in live ==> cluster.deployments[u] == Outcome(actions, live, done + [s], u)
    ensures cluster.commits == base + PlannedCommits(actions, live, done + [s])
    ensures shouldWait <==> PlannedCommits(actions, live, done + [s]) != []
  {
    PassStep(actions, live, done, s);
    ghost var before := cluster.deployments;
    var executed := AdaptService(cluster, s, utility, cpuUsed);
    OutcomeStep(actions, live, done, s, before, cluster.deployments);
    shouldWait := waiting || executed;
  }

  /** Extending a pass by one new service adds that service's commit, if any, and changes only its outcome. */
  lemma PassStep(actions: map<string, Action>, live: map<string, Resources>, done: seq<string>, s: string)
    requires s !in done
    requires forall u :: u in done + [s] ==> u in live && u in actions
    ensures PlannedCommits(actions, live, done + [s]) == PlannedCommits(actions, live, done) +
              if Proposal(actions[s], live[s]).Some? then [Commit(s, After(actions[s], live[s]))] else []
    ensures Outcome(actions, live, done, s) == live[s]
    ensures forall u :: u in live && u != s ==> Outcome(actions, live, done + [s], u) == Outcome(actions, live, done, u)
    ensures Outcome(actions, live, done + [s], s) == After(actions[s], live[s])
  {
    assert (done + [s])[..|done|] == done;
  }

  /** Updating one new service's deployment to its outcome moves every deployment to its outcome after one more service. */
  lemma OutcomeStep(actions: map<string, Action>, live: map<string, Resources>, done: seq<string>, s: string,
                    before: map<string, Resources>, after: map<string, Resources>)
    requires s !in done && s in live && s in actions
    requires forall u :: u in done ==> u in live && u in actions
    requires before.Keys == live.Keys
    requires forall u :: u in live ==> before[u] == Outcome(actions, live, done, u)
    requires after == before[s := After(actions[s], live[s])]
    ensures after.Keys == live.Keys
    ensures forall u :: u in live ==> after[u] == Outcome(actions, live, done + [s], u)
  {
    PassStep(actions, live, done, s);
  }

  /** The actions the metrics call for are the rule applied to the collected utilities and cpu means. */
  lemma ActionsFromCollected(metrics: MetricMap, services: seq<string>, meansByService: map<string, ServiceMeans>,
                             cpuUsedMeans: map<string, real>, utilities: map<string, real>)
    requires Readable(metrics)
    requires meansByService.Keys == cpuUsedMeans.Keys == utilities.Keys == (set s | s in services)
    requires forall s :: s in meansByService ==> meansByService[s] == MeansOf(metrics, s)
    requires forall s :: s in cpuUsedMeans ==> cpuUsedMeans[s] == CpuMean(metrics, s)
    requires forall s :: s in meansByService ==> Utility(meansByService[s]) == Some(utilities[s])
    ensures forall s :: s in services ==> Utility(MeansOf(metrics, s)).Some?
    ensures var actions := ActionsOf(metrics, services);
            forall s :: s in services ==> s in actions && actions[s] == Decide(utilities[s], cpuUsedMeans[s])
  {
  }

  /**
   * One adaptation pass over the merged metrics. It raises a TypeError,
   * before touching any deployment, when a service's latency or error
   * count falls in a preference gap. Otherwise every monitored service,
   * in order, is scaled down, scaled up or left alone, each plan that
   * exists is executed, and the result says whether any was.
   */
  method Adapt(metrics: MetricMap, cluster: Cluster) returns (r: Result<bool, PyError>)
    requires Readable(metrics)
    requires forall s :: s in ServiceList ==> s in cluster.deployments
    modifies cluster
    ensures r.Err? <==> exists s :: s in MonitoredServices(metrics) && Utility(MeansOf(metrics, s)).None?
    ensures r.Err? ==> cluster.deployments == old(cluster.deployments) && cluster.commits == old(cluster.commits)
    ensures r.Ok? ==>
              var services := MonitoredServices(metrics);
              var actions := ActionsOf(metrics, services);
              && cluster.commits == old(cluster.commits) + PlannedCommits(actions, old(cluster.deployments), services)
              && (r.value <==> PlannedCommits(actions, old(cluster.deployments), services) != [])
              && cluster.deployments.Keys == old(cluster.deployments).Keys
              && forall s :: s in old(cluster.deployments) ==>
                   cluster.deployments[s] == Outcome(actions, old(cluster.deployments), services, s)
  {
    var services := CollectServices(metrics);
    var meansByService, cpuUsedMeans := CollectMeans(metrics, services);
    var utilities := ComputeUtilityByService(meansByService);
    if utilities.Err? {
      return Err(utilities.error);
    }
    ActionsFromCollected(metrics, services, meansByService, cpuUsedMeans, utilities.value);
    var shouldWait := AdaptServices(cluster, services, utilities.value, cpuUsedMeans, ActionsOf(metrics, services));
    return Ok(shouldWait);
  }

  /**
   * A service at c1 that is slow (6000 ms) scales up to c2; once fast
   * (200 ms, no errors, 2% cpu) it scales back down to c1; at c1 the
   * same readings find nothing lower and hold.
   */
  lemma SlowThenFastScenario(start: Resources)
    requires start.limitsCpu == "250m" && start.limitsMemory == "250Mi" && start.replicas == Whole(1)
    ensures Utility(ServiceMeans(6000.0, 0.0, 0.0)) == Some(0.35)
    ensures Utility(ServiceMeans(200.0, 0.0, 0.0)) == Some(1.0)
    ensures Proposal(Decide(0.35, 2.0), start) == Some(Catalog(C2))
    ensures Proposal(Decide(1.0, 2.0), Applied(start, Catalog(C2))) == Some(Catalog(C1))
    ensures Proposal(Decide(1.0, 2.0), Applied(Applied(start, Catalog(C2)), Catalog(C1))) == None
  {
    assert Config(start.limitsCpu, start.limitsMemory, start.replicas) == Catalog(C1);
    assert Rank(C2) == Rank(C1) + Step(false);
  }
}
