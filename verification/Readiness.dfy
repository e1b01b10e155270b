/** The readiness probe handler: a cache of the last result behind a mutex, the two
    dependency probes, and the log of status changes (internal/server/health.go). */
module Readiness {
  import opened Wrappers

  datatype Status = Healthy | Unhealthy

  datatype Dependency = Kratos | Hydra

  datatype CheckResult = CheckResult(status: Status, error: string)

  datatype ReadinessResult = ReadinessResult(status: Status, kratos: CheckResult, hydra: CheckResult) {
    function Check(d: Dependency): CheckResult {
      match d
      case Kratos => kratos
      case Hydra => hydra
    }
  }

  datatype Cached = Cached(result: ReadinessResult, storedAt: int)

  datatype LogLine = BecameUnhealthy(d: Dependency, error: string) | Recovered(d: Dependency)

  /** What a GET on a probe URL comes back with. */
  datatype ProbeReply = MalformedURL | TransportFailure | Response(code: int)

  datatype Config = Config(kratosAdminURL: string, hydraAdminURL: string)

  /** What a probe of either dependency would come back with at one instant. */
  datatype Environment = Environment(kratos: ProbeReply, hydra: ProbeReply)

  /** Two seconds, in nanoseconds. */
  const CACHE_TTL: int := 2_000_000_000

  /** probeURL: healthy exactly on a 2xx answer from a configured URL. */
  function Probe(baseURL: string, reply: ProbeReply, errorCode: string): (r: CheckResult)
    ensures r.status.Healthy? <==> baseURL != "" && reply.Response? && 200 <= reply.code < 300
  {
    if baseURL == "" then CheckResult(Unhealthy, "url_not_configured")
    else if reply.MalformedURL? || reply.TransportFailure? then CheckResult(Unhealthy, errorCode)
    else if reply.code < 200 || reply.code >= 300 then CheckResult(Unhealthy, errorCode)
    else CheckResult(Healthy, "")
  }

  function ProbeKratos(config: Config, env: Environment): CheckResult {
    Probe(config.kratosAdminURL, env.kratos, "kratos_unreachable")
  }

  function ProbeHydra(config: Config, env: Environment): CheckResult {
    Probe(config.hydraAdminURL, env.hydra, "hydra_unreachable")
  }

  function Combine(kratos: CheckResult, hydra: CheckResult): (r: ReadinessResult)
    ensures r.status.Healthy? <==> r.kratos.status.Healthy? && r.hydra.status.Healthy?
  {
    var overall := if !kratos.status.Healthy? || !hydra.status.Healthy? then Unhealthy else Healthy;
    ReadinessResult(overall, kratos, hydra)
  }

  /** The answer of a probe pair that sees one and the same environment. */
  function FreshResult(config: Config, env: Environment): ReadinessResult {
    Combine(ProbeKratos(config, env), ProbeHydra(config, env))
  }

  /** `check` tells of a dependency with this URL and this reply: healthy on a 2xx answer from a
      configured URL, otherwise unhealthy with the reason. */
  ghost predicate Tells(check: CheckResult, baseURL: string, reply: ProbeReply, unreachable: string) {
    && (check.status.Healthy? <==> baseURL != "" && reply.Response? && 200 <= reply.code <= 299)
    && (check.status.Healthy? ==> check.error == "")
    && (baseURL == "" ==> check.error == "url_not_configured")
    && (check.status.Unhealthy? && baseURL != "" ==> check.error == unreachable)
  }

  /** `result` is what the two replies amount to. */
  ghost predicate ResultTells(
    config: Config, kratosReply: ProbeReply, hydraReply: ProbeReply, result: ReadinessResult)
  {
    && Tells(result.kratos, config.kratosAdminURL, kratosReply, "kratos_unreachable")
    && Tells(result.hydra, config.hydraAdminURL, hydraReply, "hydra_unreachable")
    && (result.status.Healthy? <==> result.kratos.status.Healthy? && result.hydra.status.Healthy?)
  }

  /** A fresh probe pair tells of each dependency by that dependency's own URL and reply. */
  lemma FreshResultTells(config: Config, env: Environment)
    ensures ResultTells(config, env.kratos, env.hydra, FreshResult(config, env))
  {
  }

  /** The first critical section: a hit while the stored result is younger than the TTL. */
  function CacheLookup(cached: Option<Cached>, now: int): (hit: Option<ReadinessResult>)
    ensures hit.Some? <==> cached.Some? && now < cached.value.storedAt + CACHE_TTL
    ensures hit.Some? ==> hit.value == cached.value.result
  {
    if cached.Some? && now - cached.value.storedAt < CACHE_TTL then Some(cached.value.result) else None
  }

  function CachedResult(cached: Option<Cached>): Option<ReadinessResult> {
    if cached.Some? then Some(cached.value.result) else None
  }

  /** The lines owed for one dependency when `previous` is replaced by `current`. */
  function DependencyLines(d: Dependency, previous: Option<ReadinessResult>, current: ReadinessResult): seq<LogLine> {
    var after := current.Check(d);
    if previous.Some? && previous.value.Check(d).status == after.status then []
    else if after.status.Unhealthy? then [BecameUnhealthy(d, after.error)]
    else if previous.Some? then [Recovered(d)]
    else []
  }

  /** The cache says that `d` is unhealthy; without a cache nothing is known to be. */
  ghost predicate KnownUnhealthy(d: Dependency, cached: Option<ReadinessResult>) {
    cached.Some? && (if d.Kratos? then cached.value.kratos else cached.value.hydra).status.Unhealthy?
  }

  /** One line exactly when a dependency turns unhealthy or recovers, with its name and, when it
      turns unhealthy, the error of its own check. */
  lemma LinesTellChange(d: Dependency, previous: Option<ReadinessResult>, current: ReadinessResult)
    ensures var check := if d.Kratos? then current.kratos else current.hydra;
            DependencyLines(d, previous, current)
            == if KnownUnhealthy(d, previous) == check.status.Unhealthy? then []
               else [if check.status.Unhealthy? then BecameUnhealthy(d, check.error) else Recovered(d)]
  {
  }

  class HealthHandler {
    const config: Config
    var cachedReady: Option<Cached>
    var log: seq<LogLine>

    constructor (config: Config)
      ensures this.config == config && cachedReady == None && log == []
    {
      this.config := config;
      cachedReady := None;
      log := [];
    }

    /** The critical section that reads the cache. */
    method CheckCache(now: int) returns (hit: Option<ReadinessResult>)
      ensures hit == CacheLookup(cachedReady, now)
    {
      hit := None;
      if cachedReady.Some? && now - cachedReady.value.storedAt < CACHE_TTL {
        hit := Some(cachedReady.value.result);
      }
    }

    /** The critical section that replaces the cache and remembers what it replaced. */
    method StoreResult(result: ReadinessResult, now: int) returns (previous: Option<ReadinessResult>)
      modifies this`cachedReady
      ensures previous == CachedResult(old(cachedReady))
      ensures cachedReady == Some(Cached(result, now))
    {
      previous := None;
      if cachedReady.Some? {
        previous := Some(cachedReady.value.result);
      }
      cachedReady := Some(Cached(result, now));
    }

    method LogDependency(d: Dependency, before: Option<CheckResult>, after: CheckResult)
      modifies this`log
      ensures log == old(log) + (
                     if before.Some? && before.value.status == after.status then []
                     else if after.status.Unhealthy? then [BecameUnhealthy(d, after.error)]
                     else if before.Some? then [Recovered(d)] else [])
    {
      if before.Some? && before.value.status == after.status {
        return;
      }
      if after.status != Healthy {
        log := log + [BecameUnhealthy(d, after.error)];
        return;
      }
      if before.Some? {
        log := log + [Recovered(d)];
      }
    }

    method LogReadinessTransitions(previous: Option<ReadinessResult>, current: ReadinessResult)
      modifies this`log
      ensures log == old(log) + DependencyLines(Kratos, previous, current) + DependencyLines(Hydra, previous, current)
    {
      var kratosBefore, hydraBefore := None, None;
      if previous.Some? {
        kratosBefore := Some(previous.value.kratos);
        hydraBefore := Some(previous.value.hydra);
      }
      LogDependency(Kratos, kratosBefore, current.kratos);
      LogDependency(Hydra, hydraBefore, current.hydra);
    }

    /** One call that nothing interrupts: `checked` and `stored` are its two clock readings,
        `kratosReply` and `hydraReply` what its probes come back with. */
    method EvaluateReadiness(checked: int, kratosReply: ProbeReply, hydraReply: ProbeReply, stored: int)
      returns (result: ReadinessResult)
      modifies this`cachedReady, this`log
      ensures var hit := CacheLookup(old(cachedReady), checked);
              if hit.Some? then
                result == hit.value && cachedReady == old(cachedReady) && log == old(log)
              else
                && ResultTells(config, kratosReply, hydraReply, result)
                && result == FreshResult(config, Environment(kratosReply, hydraReply))
                && cachedReady == Some(Cached(result, stored))
                && log == old(log) + DependencyLines(Kratos, CachedResult(old(cachedReady)), result)
                                   + DependencyLines(Hydra, CachedResult(old(cachedReady)), result)
    {
      var hit := CheckCache(checked);
      if hit.Some? {
        return hit.value;
      }
      var kratos := Probe(config.kratosAdminURL, kratosReply, "kratos_unreachable");
      var hydra := Probe(config.hydraAdminURL, hydraReply, "hydra_unreachable");
      var overall := Healthy;
      if kratos.status != Healthy || hydra.status != Healthy {
        overall := Unhealthy;
      }
      result := ReadinessResult(overall, kratos, hydra);
      var previous := StoreResult(result, stored);
      LogReadinessTransitions(previous, result);
    }
  }
}
