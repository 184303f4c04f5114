/**
 * The deployment objects the adapter reads and writes (apply_resources,
 * execute): the resources of a deployment's first container and its
 * replica count, the in-memory object fetched for one service, and the
 * live state it is committed to.
 */
module Deployments {
  import opened Wrappers
  import opened Tiers

  /**
   * What the adapter sees of one deployment: cpu and memory requests and
   * limits of its first container, and `spec.replicas`.
   */
  datatype Resources = Resources(
    requestsCpu: string,
    requestsMemory: string,
    limitsCpu: string,
    limitsMemory: string,
    replicas: PodCount)

  /** One committed change: the service and the resources it was committed with. */
  datatype Commit = Commit(service: string, state: Resources)

  /** The resources of a deployment once a plan is applied: requests and limits both set to the plan's values. */
  function Applied(current: Resources, plan: Config): (next: Resources)
    ensures next.requestsCpu == next.limitsCpu == plan.cpu
    ensures next.requestsMemory == next.limitsMemory == plan.memory
    ensures next.replicas == plan.pods
  {
    current.(requestsCpu := plan.cpu, limitsCpu := plan.cpu,
             requestsMemory := plan.memory, limitsMemory := plan.memory,
             replicas := plan.pods)
  }

  /** Applying a plan a second time changes nothing more. */
  lemma AppliedIdempotent(current: Resources, plan: Config)
    ensures Applied(Applied(current, plan), plan) == Applied(current, plan)
  {
  }

  /** After a catalog tier is applied, reading the limits back finds that tier again. */
  lemma AppliedTierIsFoundAgain(current: Resources, t: Tier)
    ensures var next := Applied(current, Catalog(t));
            CurrentTier(next.limitsCpu, next.limitsMemory, next.replicas) == Some(t)
  {
    var next := Applied(current, Catalog(t));
    CurrentTierIsCatalogMatch(next.limitsCpu, next.limitsMemory, next.replicas, t);
  }

  /** The live deployments, by service name, and every change committed to them, in order. */
  class Cluster {
    var deployments: map<string, Resources>
    var commits: seq<Commit>

    constructor (deployments: map<string, Resources>)
      ensures this.deployments == deployments && commits == []
    {
      this.deployments := deployments;
      commits := [];
    }
  }

  /** An in-memory deployment object: a copy of the live one that `Apply` commits back. */
  class Deployment {
    const cluster: Cluster
    const name: string
    var requestsCpu: string
    var requestsMemory: string
    var limitsCpu: string
    var limitsMemory: string
    var replicas: PodCount

    function Model(): Resources
      reads this
    {
      Resources(requestsCpu, requestsMemory, limitsCpu, limitsMemory, replicas)
    }

    /** Fetches the object of one deployment (`oc.selector('deployment.apps/<name>').object()`). */
    constructor Select(cluster: Cluster, name: string)
      requires name in cluster.deployments
      ensures this.cluster == cluster && this.name == name
      ensures Model() == cluster.deployments[name]
    {
      this.cluster := cluster;
      this.name := name;
      var live := cluster.deployments[name];
      requestsCpu := live.requestsCpu;
      requestsMemory := live.requestsMemory;
      limitsCpu := live.limitsCpu;
      limitsMemory := live.limitsMemory;
      replicas := live.replicas;
    }

    /** Commits the object's model to the live deployment (`obj.apply()`). */
    method Apply()
      modifies cluster
      ensures cluster.deployments == old(cluster.deployments)[name := Model()]
      ensures cluster.commits == old(cluster.commits) + [Commit(name, Model())]
    {
      cluster.deployments := cluster.deployments[name := Model()];
      cluster.commits := cluster.commits + [Commit(name, Model())];
    }
  }

  /**
   * Writes the plan's memory and cpu to both requests and limits and its pod
   * count to the replicas, then commits the object.
   */
  method ApplyResources(obj: Deployment, plan: Config)
    modifies obj, obj.cluster
    ensures obj.Model() == Applied(old(obj.Model()), plan)
    ensures obj.cluster.deployments == old(obj.cluster.deployments)[obj.name := obj.Model()]
    ensures obj.cluster.commits == old(obj.cluster.commits) + [Commit(obj.name, obj.Model())]
  {
    obj.requestsMemory := plan.memory;
    obj.limitsMemory := plan.memory;
    obj.requestsCpu := plan.cpu;
    obj.limitsCpu := plan.cpu;
    obj.replicas := plan.pods;
    obj.Apply();
  }

  /** Fetches a service's deployment and applies a plan to it. */
  method Execute(cluster: Cluster, service: string, plan: Config)
    requires service in cluster.deployments
    modifies cluster
    ensures var next := Applied(old(cluster.deployments)[service], plan);
            && cluster.deployments == old(cluster.deployments)[service := next]
            && cluster.commits == old(cluster.commits) + [Commit(service, next)]
  {
    var obj := new Deployment.Select(cluster, service);
    ApplyResources(obj, plan);
  }
}
