# Acme Air autoscaling adapter — a Dafny model

This project models the autoscaling adapter of the Acme Air load-testing
setup (`acmeair-jmeter/scripts/a3/adapter.py`). Each adaptation pass of the
adapter does four things:

1. It pulls latency, error-count, cpu and memory metrics for the Acme Air
   workloads from the monitoring backend. It groups every reply by workload
   name.
2. It averages each monitored service's samples. It turns the mean latency
   and mean error count into preferences, and their weighted sum
   (0.65 / 0.35) into a utility.
3. It applies a first-match rule to each service:
   - full utility with a cpu mean below 5 scales down;
   - utility below 0.7 scales up;
   - anything else holds.
4. It moves a service between three catalog tiers:
   - c1 = 250m / 250Mi / 1 pod;
   - c2 = 250m / 500Mi / 1 pod;
   - c3 = 250m / 500Mi / 2 pods.

   Outside the catalog, it doubles or halves the pod count at 250m / 500Mi.
   Each plan is written to the deployment's requests, limits and replicas,
   and then committed.

The model is split into modules that follow the adapter's own layering:

- `Wrappers` (wrappers.dfy) holds `Option` and `Result`.
- `Lists` (lists.dfy) holds order-preserving de-duplication and filtering of lists.
- `Metrics` (metrics.dfy) covers:
  - the reply rows;
  - the per-workload grouping (`defaultdict(list)` in row order);
  - the 600-sample window check and the query that `get_metrics` sends;
  - means of sample lists.
- `Scoring` (scoring.dfy) covers the two preference step functions, the utility, and the per-service utilities.
- `Tiers` (tiers.dfy) covers:
  - the catalog and `configuration_maps`;
  - the text key `cpu x memory x pods` and its lookup;
  - `find_next_configuration`.
- `Deployments` (deployments.dfy) covers the live cluster and the deployment object. The cluster is a class holding the live resources of every deployment and the log of commits. The deployment object is a class whose fields are the first container's cpu/memory requests and limits and `spec.replicas`. `apply_resources` and `execute` update those fields in place and commit them.
- `Adaptation` (adaptation.dfy) covers one pass of `adapt`:
  - the list of monitored services, in order of first mention;
  - the means;
  - the utilities;
  - the decision;
  - the plans executed against the cluster.

  A pass that raises before any change is a `Result` error.

Python details that decide behaviour are written out:

- **Insertion order.** Python dicts keep it. `Series` and `MetricMap` carry their key order as sequences, because the order of the monitored services depends on it.
- **Pod counts.** A pod count is an `int` until it is halved with `/`, which always yields a `float`. `PodCount` keeps that distinction, and a float pod count never matches a catalog key, because `str()` of a float always contains `.`, `e`, `inf` or `nan`.
- **Gaps in the preferences.** `latency_to_preference` gives `None` for a latency of exactly 5000 ms, and `rate_error_count_to_preference` gives `None` for exactly 3 errors. The product `0.65 * None` then raises `TypeError`, so `Utility` has no value there and `Adapt` returns `Err(TypeError)`, having changed nothing.
- **The 'cpu_used' entry.** The 'cpu_used' entry of a service's means is filled with the error-count mean (adapter.py line 242). The decision reads the real cpu mean, so that entry never matters; `UtilityIgnoresCpuEntry` states this.
- **Possible utilities.** The utility takes exactly the twelve values of `Scoring.UtilityLattice`. A service with a latency of 1000 to 3000 ms and no errors has utility 0.675, which is below 0.7, so it scales up. A service with a latency of 1000 to 3000 ms and 1 to 3 errors has utility exactly 0.5.

At its edges the code behaves as follows, and the model keeps it so:

- halving a pod count has no floor and no minimum of one pod (`Tiers.HalvingHasNoFloor`);
- a plan equal to the current configuration is still executed;
- a latency of exactly 5000 ms or an error count of exactly 3 raises `TypeError`;
- plans are read from the container's limits, not its requests.

## Model

| member | source | states |
|---|---|---|
| Lists.Distinct | acmeair-jmeter/scripts/a3/adapter.py:225-226 | the result holds exactly the elements of the input, each once, in order of first occurrence (no duplicates, same membership, no longer than the input) |
| Lists.KeepIn | acmeair-jmeter/scripts/a3/adapter.py:225 | the result holds exactly the input's elements that are in the allowed set, and is no longer than the input |
| Lists.DistinctExtends | acmeair-jmeter/scripts/a3/adapter.py:225-226 | for all lists xs and ys, the de-duplication of xs is a prefix of the de-duplication of xs + ys. |
| Lists.DistinctOfDistinct | acmeair-jmeter/scripts/a3/adapter.py:225-226 | de-duplicating a list without duplicates returns it unchanged |
| Metrics.Column | acmeair-jmeter/scripts/a3/adapter.py:57-59 | a workload's column is non-empty exactly when the workload has a row, and never longer than the reply |
| Metrics.ColumnHoldsRows | acmeair-jmeter/scripts/a3/adapter.py:57-59 | a value is in a workload's list exactly when some row of that workload carries it at the requested position |
| Metrics.GroupMetricResult | acmeair-jmeter/scripts/a3/adapter.py:52-61 | the grouped dict's keys are the reply's workloads in order of first appearance, and each list is that workload's values at the requested position in row order |
| Metrics.GroupMetricsByService | acmeair-jmeter/scripts/a3/adapter.py:65-70 | the i-th requested metric maps to the grouping of the i-th value of every row, the keys being exactly the requested metrics in request order |
| Metrics.WindowTooLarge | acmeair-jmeter/scripts/a3/adapter.py:80-85 | a window is refused exactly when it reaches back more than 6000 seconds (more than 600 samples of 10 seconds) |
| Metrics.GetMetrics | acmeair-jmeter/scripts/a3/adapter.py:73-93 | no query is sent exactly when the window is too large; otherwise the query is the key column followed by each metric with its aggregation, at sampling 10 with the given window and filter; a result exists exactly when the query went out and the backend answered, and it is the grouping of the reply, a map with each id and workload listed once |
| Metrics.GroupedIsWellFormed | acmeair-jmeter/scripts/a3/adapter.py:52-70 | a grouping for distinct metric ids lists each metric once, exactly the metrics it maps, and in each series each workload once, exactly the workloads it has lists for |
| Metrics.MeanOrZero | acmeair-jmeter/scripts/a3/adapter.py:106-110 | the adapter's mean of a sample list is 0 for an empty list and otherwise times the number of samples equals their sum |
| Metrics.Mean | acmeair-jmeter/scripts/a3/adapter.py:110 | the mean times the number of samples is their sum |
| Metrics.SumBounds | acmeair-jmeter/scripts/a3/adapter.py:110 | the sum of n samples bounded by lo and hi lies between n·lo and n·hi |
| Metrics.MeanWithinBounds | acmeair-jmeter/scripts/a3/adapter.py:106-110 | a mean lies within any bounds of its samples |
| Metrics.ComputeMeanByService | acmeair-jmeter/scripts/a3/adapter.py:102-113 | the result has one entry per requested service: 0 when the metric lists no samples for it, otherwise the mean of its samples |
| Scoring.LatencyPreference | acmeair-jmeter/scripts/a3/adapter.py:118-126 | the preference is 1 exactly below 1000 ms, 0.5 exactly on [1000, 3000), 0.2 exactly on [3000, 5000), 0 exactly above 5000, and absent exactly at 5000 |
| Scoring.ErrorCountPreference | acmeair-jmeter/scripts/a3/adapter.py:128-134 | the preference is 1 exactly below 1, 0.5 exactly on [1, 3), 0 exactly above 3, and absent exactly at 3 |
| Scoring.LatencyPreferenceAntitone | acmeair-jmeter/scripts/a3/adapter.py:118-126 | a higher latency never has a higher preference |
| Scoring.ErrorCountPreferenceAntitone | acmeair-jmeter/scripts/a3/adapter.py:128-134 | a higher error count never has a higher preference |
| Scoring.Utility | acmeair-jmeter/scripts/a3/adapter.py:139-141 | the utility is undefined exactly when the latency is 5000 or the error count is 3; otherwise it lies in [0, 1] among twelve values, equals 1 exactly when latency < 1000 and errors < 1, and is below 0.7 exactly when latency >= 1000 or errors > 3 |
| Scoring.UtilityIgnoresCpuEntry | acmeair-jmeter/scripts/a3/adapter.py:139-141 | the utility reads only the latency and error-count entries |
| Scoring.ComputeUtilityByService | acmeair-jmeter/scripts/a3/adapter.py:136-144 | a TypeError is raised exactly when some service's utility is undefined; otherwise every service gets its utility and nothing else is listed |
| Tiers.PodCount.Doubled | acmeair-jmeter/scripts/a3/adapter.py:160 | doubling doubles the value and keeps an int an int |
| Tiers.PodCount.Halved | acmeair-jmeter/scripts/a3/adapter.py:172 | halving always yields a float of exactly half the value |
| Tiers.Catalog | acmeair-jmeter/scripts/a3/adapter.py:36-40 | every catalog tier is at 250m of cpu with a whole pod count of one or two |
| Tiers.CatalogDistinct | acmeair-jmeter/scripts/a3/adapter.py:36-40 | no two tiers have the same configuration |
| Tiers.CurrentTier | acmeair-jmeter/scripts/a3/adapter.py:147-151 | a tier found by the key lookup is one whose catalog configuration equals the given cpu, memory and pod count |
| Tiers.CatalogKey | acmeair-jmeter/scripts/a3/adapter.py:36-46 | every catalog tier's configuration formats to the key that `configuration_maps` maps to that tier |
| Tiers.KeyDeterminesConfig | acmeair-jmeter/scripts/a3/adapter.py:42-46 | a configuration whose formatted key is in `configuration_maps` is field for field the catalog configuration of the mapped tier |
| Tiers.CurrentTierIsCatalogMatch | acmeair-jmeter/scripts/a3/adapter.py:147-151 | the key lookup finds tier t exactly when cpu, memory and pod count equal t's catalog entry |
| Tiers.MatchedTier | acmeair-jmeter/scripts/a3/adapter.py:147-151 | a configuration has a tier exactly when it is a catalog entry, and then it is that tier's entry |
| Tiers.FindNextConfiguration | acmeair-jmeter/scripts/a3/adapter.py:146-177 | scaling up always yields a plan at 500Mi; scaling down yields none exactly from c1; every plan is at 250m; from a catalog tier the plan is the catalog tier one rank up or down; scaling up from c3 or outside the catalog doubles the pods, and scaling down outside the catalog halves them |
| Tiers.ScaleDownUndoesScaleUp | acmeair-jmeter/scripts/a3/adapter.py:154-170 | from c1 or c2, scaling up and then down returns to the starting tier |
| Tiers.ScaleUpUndoesScaleDown | acmeair-jmeter/scripts/a3/adapter.py:154-170 | from c2 or c3, scaling down and then up returns to the starting tier |
| Tiers.ScaleUpBeyondCatalog | acmeair-jmeter/scripts/a3/adapter.py:159-160 | scaling up from c3 gives 250m / 500Mi with 4 pods |
| Tiers.HalvingHasNoFloor | acmeair-jmeter/scripts/a3/adapter.py:171-172 | scaling down outside the catalog gives half a pod from 1 pod and 1.5 pods from 3 |
| Deployments.Applied | acmeair-jmeter/scripts/a3/adapter.py:193-198 | after applying a plan, requests and limits both carry the plan's cpu and memory and the replicas are the plan's pod count |
| Deployments.AppliedIdempotent | acmeair-jmeter/scripts/a3/adapter.py:193-198 | applying the same plan twice is the same as applying it once |
| Deployments.AppliedTierIsFoundAgain | acmeair-jmeter/scripts/a3/adapter.py:193-198 | after a catalog tier is applied, reading the limits and replicas back finds that tier |
| Deployments.Deployment.Select | acmeair-jmeter/scripts/a3/adapter.py:202 | the fetched object holds the live resources of the named deployment |
| Deployments.Deployment.Apply | acmeair-jmeter/scripts/a3/adapter.py:199 | committing replaces that deployment's live resources by the object's and appends one commit; no other deployment changes |
| Deployments.ApplyResources | acmeair-jmeter/scripts/a3/adapter.py:193-199 | the object becomes the plan applied to its old resources, and exactly that is committed |
| Deployments.Execute | acmeair-jmeter/scripts/a3/adapter.py:201-210 | only the named deployment changes, to the plan applied to its live resources, and exactly one commit of that is appended |
| Adaptation.Decide | acmeair-jmeter/scripts/a3/adapter.py:252-265 | the rule scales down exactly when utility is 1 and cpu is below 5, scales up exactly when utility is below 0.7, and holds exactly otherwise |
| Adaptation.DecisionFromMeans | acmeair-jmeter/scripts/a3/adapter.py:252-265 | in terms of the means: scale down exactly when latency < 1000, errors < 1 and cpu < 5; scale up exactly when latency >= 1000 or errors > 3; hold otherwise |
| Adaptation.MonitoredServices | acmeair-jmeter/scripts/a3/adapter.py:222-226 | the services are exactly the names in `service_list` that some metric lists, each once |
| Adaptation.CollectServices | acmeair-jmeter/scripts/a3/adapter.py:222-226 | the nested walk over every metric's workloads yields the monitored services in order of first mention |
| Adaptation.AppendServices | acmeair-jmeter/scripts/a3/adapter.py:224-226 | the inner walk extends the collected services exactly as if all names seen so far were filtered and de-duplicated |
| Adaptation.CollectMeans | acmeair-jmeter/scripts/a3/adapter.py:228-242 | each service gets its latency mean divided by 10^6, its error-count mean, and the error-count mean again in the 'cpu_used' entry; the cpu means are kept apart for the decision |
| Adaptation.MeansOf | acmeair-jmeter/scripts/a3/adapter.py:231-242 | a service's recorded latency is its latency mean divided by 10^6, and its error-count and 'cpu_used' entries are both its error-count mean |
| Adaptation.CpuMean | acmeair-jmeter/scripts/a3/adapter.py:240 | the cpu figure is 0 for a service without cpu samples and otherwise the mean of its cpu samples |
| Adaptation.Proposal | acmeair-jmeter/scripts/a3/adapter.py:180-191 | an action has no plan exactly when it holds or scales down from c1; a plan is at 250m, and scaling up always has a plan at 500Mi |
| Adaptation.Plan | acmeair-jmeter/scripts/a3/adapter.py:180-191 | the plan is the next configuration from the live deployment's cpu and memory limits and its replicas |
| Adaptation.AdaptService | acmeair-jmeter/scripts/a3/adapter.py:247-265 | a plan is executed exactly when the rule picks a direction and that direction has a plan; only that service's deployment changes, and one commit is appended exactly when a plan is executed |
| Adaptation.CommitsIffSomePlan | acmeair-jmeter/scripts/a3/adapter.py:244-267 | a pass commits something exactly when some service's action has a plan |
| Adaptation.AdaptNext | acmeair-jmeter/scripts/a3/adapter.py:247-263 | adapting one more service keeps the deployments, the commit log and the wait flag equal to those of the planned pass over the services so far |
| Adaptation.AdaptServices | acmeair-jmeter/scripts/a3/adapter.py:244-267 | the services are adapted in order, each from its own live state; the commits are the planned ones in service order; the result says whether any plan was executed; every other deployment is untouched |
| Adaptation.Adapt | acmeair-jmeter/scripts/a3/adapter.py:218-267 | a pass fails with TypeError, changing nothing, exactly when a monitored service has an undefined utility; otherwise it commits the planned changes of the monitored services in order, leaves every deployment at its outcome, and reports whether anything was executed |
| Adaptation.SlowThenFastScenario | acmeair-jmeter/scripts/a3/adapter.py:252-263 | a service at c1 that is slow (6000 ms) scales up to c2, and once fast with low cpu scales back down to c1, where there is nothing lower |

## Left out

- The monitoring client and its network call are not modelled. `sdclient.get_data` is replaced by the `reply` parameter of `GetMetrics`, and the authentication setup (lines 9-15) is not modelled.
- `get_all_metrics` (lines 95-100) is not modelled. It merges the groups of both filters, and would raise `TypeError` when a group returns `None`. `Adapt` takes the merged map as its input, and `Readable` requires that it is a map a Python dict can be and holds the latency, error-count and cpu metrics; the `KeyError` raised when one is missing is not modelled.
- The OpenShift client is not modelled. `oc.selector(...).object()` and `obj.apply()` are modelled by the `Cluster` and `Deployment` classes. A deployment's other fields, and containers other than the first, are not modelled.
- `main`, `initialize_services` and the sleeps (180 s, 360 s and 10 s) are not modelled. They concern pacing and start-up, not one pass.
- `print` calls are not modelled. This includes the `next_configuration != current_config` tests at lines 162 and 174, which only decide whether to print.
- Floating-point rounding is not modelled: means, preferences and utilities are exact reals. The printed text of a float is also not modelled. A float pod count is taken never to match a catalog key.
- Metrics.GroupMetricResult: it requires every row to carry a value at the requested position; the `IndexError` a shorter row raises is not modelled.
- Metrics.GroupMetricsByService: the `RowsHold` precondition stands for the backend returning one value per requested metric.
- Metrics.GetMetrics: the group is given as a list of requests without duplicate ids, standing for the dict `metrics_group`.
- Scoring.ComputeUtilityByService: it visits the services in an unspecified order. This does not matter, because the outcome is all-or-nothing.
- The memory metric is collected and its workloads count as mentions, but no mean is taken of it, as in the adapter.
- The other scripts of the repository (drivers, the scraper) are not part of this model.
