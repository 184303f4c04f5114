/**
 * The utility model: step functions from mean latency and mean error count
 * to preferences, and their weighted sum per service
 * (latency_to_preference, rate_error_count_to_preference,
 * compute_utility_function_by_service).
 */
module Scoring {
  import opened Wrappers

  const LatencyWeight: real := 0.65
  const ErrorRateWeight: real := 0.35

  /**
   * The means the adapter keeps for one service (`means_by_service[service]`):
   * latency in milliseconds, error count, and the 'cpu_used' entry.
   */
  datatype ServiceMeans = ServiceMeans(latency: real, errorRate: real, cpuUsed: real)

  /** The error Python raises when a preference is `None` and is multiplied by its weight. */
  datatype PyError = TypeError

  /**
   * Preference for a mean latency in milliseconds: 1 below 1000, 0.5 up to
   * 3000, 0.2 up to 5000, 0 above 5000. Exactly 5000 matches none of the
   * tests and gives no preference (`None`).
   */
  function LatencyPreference(latency: real): (p: Option<real>)
    ensures p.None? <==> latency == 5000.0
    ensures p == Some(1.0) <==> latency < 1000.0
    ensures p == Some(0.5) <==> 1000.0 <= latency < 3000.0
    ensures p == Some(0.2) <==> 3000.0 <= latency < 5000.0
    ensures p == Some(0.0) <==> latency > 5000.0
  {
    if latency < 1000.0 then Some(1.0)
    else if 1000.0 <= latency < 3000.0 then Some(0.5)
    else if 3000.0 <= latency < 5000.0 then Some(0.2)
    else if latency > 5000.0 then Some(0.0)
    else None
  }

  /**
   * Preference for a mean error count: 1 below 1, 0.5 up to 3, 0 above 3.
   * Exactly 3 matches none of the tests and gives no preference (`None`).
   */
  function ErrorCountPreference(errors: real): (p: Option<real>)
    ensures p.None? <==> errors == 3.0
    ensures p == Some(1.0) <==> errors < 1.0
    ensures p == Some(0.5) <==> 1.0 <= errors < 3.0
    ensures p == Some(0.0) <==> errors > 3.0
  {
    if errors < 1.0 then Some(1.0)
    else if 1.0 <= errors < 3.0 then Some(0.5)
    else if errors > 3.0 then Some(0.0)
    else None
  }

  /** A higher latency never earns a higher preference. */
  lemma LatencyPreferenceAntitone(a: real, b: real)
    requires a <= b
    requires LatencyPreference(a).Some? && LatencyPreference(b).Some?
    ensures LatencyPreference(b).value <= LatencyPreference(a).value
  {
  }

  /** More errors never earn a higher preference. */
  lemma ErrorCountPreferenceAntitone(a: real, b: real)
    requires a <= b
    requires ErrorCountPreference(a).Some? && ErrorCountPreference(b).Some?
    ensures ErrorCountPreference(b).value <= ErrorCountPreference(a).value
  {
  }

  /** Every value 0.65 * pL + 0.35 * pE can take. */
  const UtilityLattice: set<real> :=
    {1.0, 0.825, 0.65, 0.675, 0.5, 0.325, 0.48, 0.305, 0.13, 0.35, 0.175, 0.0}

  /**
   * The utility of one service: the weighted sum of its two preferences.
   * Python raises a TypeError when either preference is `None`; here that
   * is no value.
   */
  function Utility(m: ServiceMeans): (u: Option<real>)
    ensures u.None? <==> m.latency == 5000.0 || m.errorRate == 3.0
    ensures u.Some? ==> 0.0 <= u.value <= 1.0 && u.value in UtilityLattice
    ensures u.Some? ==> (u.value == 1.0 <==> m.latency < 1000.0 && m.errorRate < 1.0)
    ensures u.Some? ==> (u.value < 0.7 <==> m.latency >= 1000.0 || m.errorRate > 3.0)
  {
    match (LatencyPreference(m.latency), ErrorCountPreference(m.errorRate))
    case (Some(pL), Some(pE)) => Some(LatencyWeight * pL + ErrorRateWeight * pE)
    case _ => None
  }

  /** The utility depends on latency and error count only, never on the 'cpu_used' entry. */
  lemma UtilityIgnoresCpuEntry(m: ServiceMeans, cpuUsed: real)
    ensures Utility(m.(cpuUsed := cpuUsed)) == Utility(m)
  {
  }

  /**
   * The utility of every service of `means`, or the TypeError raised by
   * the first service whose latency or error count falls in a gap.
   */
  method ComputeUtilityByService(means: map<string, ServiceMeans>)
    returns (r: Result<map<string, real>, PyError>)
    ensures r.Err? <==> exists s :: s in means && Utility(means[s]).None?
    ensures r.Ok? ==> r.value.Keys == means.Keys
    ensures r.Ok? ==> forall s :: s in means ==> Utility(means[s]) == Some(r.value[s])
  {
    var utilities: map<string, real> := map[];
    var pending := means.Keys;
    while pending != {}
      invariant pending <= means.Keys
      invariant utilities.Keys == means.Keys - pending
      invariant forall s :: s in utilities ==> Utility(means[s]) == Some(utilities[s])
      decreases pending
    {
      var service :| service in pending;
      var pL := LatencyPreference(means[service].latency);
      var pE := ErrorCountPreference(means[service].errorRate);
      if pL.None? || pE.None? {
        return Err(TypeError);
      }
      utilities := utilities[service := LatencyWeight * pL.value + ErrorRateWeight * pE.value];
      pending := pending - {service};
    }
    return Ok(utilities);
  }
}
