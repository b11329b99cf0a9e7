/**
  The load balancer's state and its request pipeline: the service registry
  with its round-robin cursors and health flags, the request metrics, the
  `proxy` handler, one sweep of the health checker, and the `/health` and
  `/services` summaries.  The registry and the metrics are the fields of one
  `LoadBalancer` object, updated in place as the module-level dictionaries
  are; every update runs as one sequential step.
*/
module Balancer {
  import opened Common
  import opened Router
  import opened Forwarder
  import opened RoundRobin
  import opened Tally

  /** Elapsed milliseconds of one forwarded call; measured by the caller, opaque here. */
  type Millis = real

  /** One registry entry: a service's instances, its cursor and one health flag per instance. */
  datatype ServiceEntry = ServiceEntry(name: string, instances: seq<Url>, index: nat, healthy: seq<bool>)

  /** An entry `get_next_instance` and the health sweep can work on. */
  predicate WellFormed(e: ServiceEntry) {
    0 < |e.instances| && |e.healthy| == |e.instances| && e.index < |e.instances|
  }

  /** The static registry, in the same order as the route table. */
  const StaticServices: seq<ServiceEntry> := [
    ServiceEntry("member", ["http://localhost:5001"], 0, [true]),
    ServiceEntry("contribution", ["http://localhost:5002"], 0, [true]),
    ServiceEntry("loan", ["http://localhost:5003"], 0, [true]),
    ServiceEntry("notification", ["http://localhost:5004"], 0, [true]),
    ServiceEntry("savings", ["http://localhost:5005"], 0, [true]),
    ServiceEntry("report", ["http://localhost:5006"], 0, [true])
  ]

  const Identity: string := "Chama-LB-v1"
  const DisplayName: string := "Chama Load Balancer"
  const ListenPort: int := 5000
  const Strategy: string := "Round-Robin"
  const DefaultContentType: string := "application/json"
  const NotFoundStatus: int := 404

  /** `SERVICES[name]`: the position of the entry with that name; `None` is the `KeyError`. */
  function Lookup(entries: seq<ServiceEntry>, name: string): (r: Option<nat>)
    ensures r.Some? ==> r.value < |entries| && entries[r.value].name == name
  {
    if entries == [] then None
    else if entries[0].name == name then Some(0)
    else match Lookup(entries[1..], name)
      case None => None
      case Some(i) => Some(i + 1)
  }

  /** The lookup fails exactly when no entry carries the name. */
  lemma {:induction false} LookupMissing(entries: seq<ServiceEntry>, name: string)
    ensures Lookup(entries, name).None? <==> forall i | 0 <= i < |entries| :: entries[i].name != name
  {
    if entries != [] && entries[0].name != name {
      LookupMissing(entries[1..], name);
      assert forall i | 1 <= i < |entries| :: entries[i] == entries[1..][i - 1];
    }
  }

  /**
    `get_next_instance(name)` on the registry as a value: the instance at the
    entry's cursor (taken modulo the instance count), and the registry with
    that cursor advanced by one round-robin step.  An unknown name is the
    `KeyError`: no instance and the registry unchanged.
  */
  function Advance(entries: seq<ServiceEntry>, name: string): (r: (Option<Url>, seq<ServiceEntry>))
    requires forall i | 0 <= i < |entries| :: WellFormed(entries[i])
    ensures r.0.Some? <==> Lookup(entries, name).Some?
    ensures |r.1| == |entries|
    ensures forall i | 0 <= i < |entries| :: r.1[i].name == entries[i].name && WellFormed(r.1[i])
  {
    match Lookup(entries, name)
    case None => (None, entries)
    case Some(k) =>
      var e := entries[k];
      var n := |e.instances|;
      assert WellFormed(e);
      (Some(e.instances[Pick(e.index, n)]), entries[k := e.(index := Step(e.index, n))])
  }

  /** The lookup only depends on the names of the entries. */
  lemma {:induction false} LookupSameNames(a: seq<ServiceEntry>, b: seq<ServiceEntry>, name: string)
    requires |a| == |b| && forall i | 0 <= i < |a| :: a[i].name == b[i].name
    ensures Lookup(a, name) == Lookup(b, name)
  {
    if a != [] && a[0].name != name {
      LookupSameNames(a[1..], b[1..], name);
    }
  }

  /** What the proxy answers. */
  datatype Reply =
    | NotFound(error: string, availablePaths: seq<string>)
    | Proxied(body: Bytes, status: int, contentType: string,
              servedBy: string, responseTime: Millis, loadBalancer: string)
  {
    function Status(): int {
      if NotFound? then NotFoundStatus else status
    }
  }

  /**
    The answer relayed from a backend: its body and status, its content type,
    and the `X-Served-By`, `X-Response-Time` and `X-Load-Balancer` headers.
    The caller sees the backend's own status, so a backend error is not masked.
  */
  function Relayed(name: string, resp: BackendReply, elapsed: Millis): (r: Reply)
    ensures r.Proxied? && r.Status() == resp.status && r.body == resp.body
    ensures r.servedBy == name && r.responseTime == elapsed && r.loadBalancer == Identity
    ensures r.contentType == ContentType(resp.headers)
  {
    Proxied(resp.body, resp.status, ContentType(resp.headers), name, elapsed, Identity)
  }

  /** The 404 answer for a path no route matches: the path and the service names. */
  function Unrouted(fullPath: string, routes: seq<Route>): (r: Reply)
    ensures r.Status() == NotFoundStatus
  {
    NotFound("No service found for path: " + fullPath, ServiceNames(routes))
  }

  /** `"/" + path`: the request path as the router and the backends see it. */
  function FullPath(path: string): (r: string)
    ensures |r| == |path| + 1 && r[0] == '/' && r[1..] == path
  {
    "/" + path
  }

  /** `f"{base_url}{full_path}" + (f"?{query}" if query else "")`. */
  function TargetUrl(base: Url, fullPath: string, query: string): (r: Url)
    ensures base + fullPath <= r
    ensures |r| == |base| + |fullPath| + (if query == "" then 0 else 1 + |query|)
    ensures query != "" ==> r[|base| + |fullPath|..] == "?" + query
  {
    base + fullPath + (if query != "" then "?" + query else "")
  }

  /** The part of a URL tail before its first `?`, and the part after it. */
  function SplitQuery(s: string): (string, string) {
    if s == [] then ("", "")
    else if s[0] == '?' then ("", s[1..])
    else var (p, q) := SplitQuery(s[1..]); ([s[0]] + p, q)
  }

  /**
    For a path without `?`, the backend sees the path and the query the
    client sent: splitting the target after the instance's base URL at the
    first `?` gives them back.  A path holding a `?` (a decoded `%3F`) is
    split at that `?` instead.
  */
  lemma {:induction false} TargetUrlSplits(base: Url, fullPath: string, query: string)
    requires '?' !in fullPath
    ensures SplitQuery(TargetUrl(base, fullPath, query)[|base|..]) == (fullPath, query)
  {
    var tail := TargetUrl(base, fullPath, query)[|base|..];
    assert tail == fullPath + (if query != "" then "?" + query else "");
    SplitAfterPath(fullPath, if query != "" then "?" + query else "");
    if query != "" {
      assert ("?" + query)[1..] == query;
    }
  }

  lemma {:induction false} SplitAfterPath(path: string, rest: string)
    requires '?' !in path
    requires rest == [] || rest[0] == '?'
    ensures SplitQuery(path + rest) == (path, if rest == [] then "" else rest[1..])
  {
    if path == [] {
      assert path + rest == rest;
    } else {
      assert (path + rest)[1..] == path[1..] + rest;
      SplitAfterPath(path[1..], rest);
      assert [path[0]] + path[1..] == path;
    }
  }

  /** `resp_headers.get("Content-Type", "application/json")`: a case-sensitive lookup. */
  function ContentType(h: Headers): (r: string)
    ensures "Content-Type" in h ==> r == h["Content-Type"]
    ensures "Content-Type" !in h ==> r == DefaultContentType
  {
    if "Content-Type" in h then h["Content-Type"] else DefaultContentType
  }

  /** `request.get_data() or None`: an empty body is sent as no body. */
  function RequestBody(data: Bytes): (r: Option<Bytes>)
    ensures r.None? <==> data == []
    ensures r.Some? ==> r.value == data
  {
    if data == [] then None else Some(data)
  }

  /** One service in the `/health` answer. */
  datatype ServiceHealth = ServiceHealth(name: string, instances: nat, healthy: nat, urls: seq<Url>)

  /** The `metrics` object of the `/health` answer. */
  datatype MetricsSnapshot = MetricsSnapshot(
    totalRequests: nat, successful: nat, failed: nat,
    requestsPerService: map<string, nat>, uptimeSince: string)

  /** The `/health` answer. */
  datatype HealthReport = HealthReport(
    service: string, status: string, port: int,
    services: seq<ServiceHealth>, metrics: MetricsSnapshot)

  /** One service in the `/services` answer. */
  datatype ServiceListing = ServiceListing(
    name: string, instances: seq<Url>, healthy: seq<bool>, routes: seq<string>, requests: nat)

  /** The `/services` answer. */
  datatype ServicesReport = ServicesReport(success: bool, loadBalancer: string, services: seq<ServiceListing>)

  /** `response_times[name]` read without inserting. */
  function SamplesOf(times: map<string, seq<Millis>>, name: string): seq<Millis> {
    if name in times then times[name] else []
  }

  /** `response_times[name].append(elapsed)` on a `defaultdict(list)`. */
  function Appended(times: map<string, seq<Millis>>, name: string, elapsed: Millis): (r: map<string, seq<Millis>>)
    ensures SamplesOf(r, name) == SamplesOf(times, name) + [elapsed]
    ensures forall key | key != name :: SamplesOf(r, key) == SamplesOf(times, key)
  {
    times[name := SamplesOf(times, name) + [elapsed]]
  }

  /** The registry matches the route table entry by entry and every entry can be picked from. */
  predicate RegistryValid(services: seq<ServiceEntry>, routes: seq<Route>) {
    && |services| == |routes|
    && (forall i | 0 <= i < |services| :: services[i].name == routes[i].service && WellFormed(services[i]))
    && NoDuplicates(ServiceNames(routes))
  }

  /**
    The counters agree: only registered services are counted, each service
    has one sample per recorded request, successes and failures add up to the
    recorded requests, and the total (which also counts unrouted requests) is
    at least that.
  */
  predicate MetricsValid(names: seq<string>, counts: map<string, nat>, times: map<string, seq<Millis>>,
                         successful: nat, failed: nat, total: nat) {
    && (forall key | key in counts :: key in names)
    && (forall key | key in times :: key in names)
    && (forall i | 0 <= i < |names| :: |SamplesOf(times, names[i])| == Count(counts, names[i]))
    && successful + failed == SumCounts(counts, names)
    && successful + failed <= total
  }

  /** Recording one request for a registered service keeps the counters consistent. */
  lemma RecordKeepsMetricsValid(names: seq<string>, counts: map<string, nat>, times: map<string, seq<Millis>>,
                                successful: nat, failed: nat, total: nat, name: string, ok: bool, elapsed: Millis)
    requires MetricsValid(names, counts, times, successful, failed, total)
    requires NoDuplicates(names) && name in names && successful + failed < total
    ensures MetricsValid(names, Bumped(counts, name), Appended(times, name, elapsed),
      if ok then successful + 1 else successful, if ok then failed else failed + 1, total)
  {
    SumCountsIncrement(counts, names, name);
  }

  /** Inserting zero counters for registered services keeps the counters consistent. */
  lemma ZerosKeepMetricsValid(names: seq<string>, counts: map<string, nat>, counts': map<string, nat>,
                              times: map<string, seq<Millis>>, successful: nat, failed: nat, total: nat)
    requires MetricsValid(names, counts, times, successful, failed, total)
    requires forall key :: Count(counts', key) == Count(counts, key)
    requires forall key | key in counts' :: key in counts || key in names
    ensures MetricsValid(names, counts', times, successful, failed, total)
  {
    SumCountsUnchanged(counts, counts', names);
  }

  /** The static route table has no repeated service name. */
  lemma StaticNamesDistinct()
    ensures NoDuplicates(ServiceNames(ServiceRoutes))
  {
    var names := ServiceNames(ServiceRoutes);
    assert forall i | 0 <= i < 6 :: |names[i]| > 0;
    assert forall i, j | 0 <= i < j < 6 :: names[i][0] != names[j][0];
  }

  /**
    The loop of `list_services` over the registry: one listing per entry,
    reading each entry's counter from a `defaultdict(int)`, which inserts a
    zero for an entry not yet counted.
  */
  method ListEntries(services: seq<ServiceEntry>, routes: seq<Route>, counts: map<string, nat>)
    returns (listing: seq<ServiceListing>, counts': map<string, nat>)
    requires |routes| == |services|
    ensures |listing| == |services|
    ensures forall k | 0 <= k < |services| ::
      listing[k] == ServiceListing(services[k].name, services[k].instances,
        services[k].healthy, routes[k].prefixes, Count(counts, services[k].name))
    ensures forall key :: key in counts' <==> key in counts || exists k | 0 <= k < |services| :: services[k].name == key
    ensures forall key :: Count(counts', key) == Count(counts, key)
  {
    listing, counts' := [], counts;
    var k := 0;
    while k < |services|
      invariant 0 <= k <= |services|
      invariant |listing| == k
      invariant forall key :: Count(counts', key) == Count(counts, key)
      invariant forall key :: key in counts' <==> key in counts || exists j | 0 <= j < k :: services[j].name == key
      invariant forall j | 0 <= j < k ::
        listing[j] == ServiceListing(services[j].name, services[j].instances,
          services[j].healthy, routes[j].prefixes, Count(counts, services[j].name))
    {
      var e := services[k];
      if e.name !in counts' {
        counts' := counts'[e.name := 0];
      }
      listing := listing + [ServiceListing(e.name, e.instances, e.healthy, routes[k].prefixes, counts'[e.name])];
      k := k + 1;
    }
  }

  class LoadBalancer {
    /** `SERVICE_ROUTES`, fixed at start-up. */
    const routes: seq<Route>
    /** `metrics["start_time"]`. */
    const startTime: string
    /** `SERVICES`, in registration order. */
    var services: seq<ServiceEntry>
    var totalRequests: nat
    var successful: nat
    var failed: nat
    /** `metrics["requests_per_svc"]`, a `defaultdict(int)`. */
    var requestsPerSvc: map<string, nat>
    /** `metrics["response_times"]`, a `defaultdict(list)`. */
    var responseTimes: map<string, seq<Millis>>

    /** The registry and the counters are consistent. */
    ghost predicate Valid()
      reads this
    {
      && RegistryValid(services, routes)
      && MetricsValid(ServiceNames(routes), requestsPerSvc, responseTimes, successful, failed, totalRequests)
    }

    /** The state at import time: the static tables and zeroed metrics. */
    constructor (startedAt: string)
      ensures Valid()
      ensures routes == ServiceRoutes && services == StaticServices && startTime == startedAt
      ensures totalRequests == 0 && successful == 0 && failed == 0
      ensures requestsPerSvc == map[] && responseTimes == map[]
    {
      routes := ServiceRoutes;
      startTime := startedAt;
      services := StaticServices;
      totalRequests, successful, failed := 0, 0, 0;
      requestsPerSvc, responseTimes := map[], map[];
      StaticNamesDistinct();
      ZeroSum(ServiceNames(ServiceRoutes));
    }

    /**
      `get_next_instance(name)`: the instance at the cursor (taken modulo the
      instance count) and the cursor advanced by one round-robin step.  Nothing
      but that entry's cursor changes.  An unknown name changes nothing.
    */
    method NextInstance(name: string) returns (r: Option<Url>)
      requires Valid()
      modifies this
      ensures Valid()
      ensures (r, services) == Advance(old(services), name)
      ensures totalRequests == old(totalRequests) && successful == old(successful) && failed == old(failed)
      ensures requestsPerSvc == old(requestsPerSvc) && responseTimes == old(responseTimes)
    {
      var k := Lookup(services, name);
      if k.None? {
        return None;
      }
      var e := services[k.value];
      var idx := e.index % |e.instances|;
      services := services[k.value := e.(index := (idx + 1) % |e.instances|)];
      r := Some(e.instances[idx]);
    }

    /**
      One pass of `health_check_loop`: every flag of every service is
      overwritten with the probe result for its instance; nothing else changes.
    */
    method HealthSweep(probe: Url -> bool)
      requires Valid()
      modifies this
      ensures Valid()
      ensures |services| == |old(services)|
      ensures forall k | 0 <= k < |services| ::
        && services[k].name == old(services)[k].name
        && services[k].instances == old(services)[k].instances
        && services[k].index == old(services)[k].index
        && |services[k].healthy| == |services[k].instances|
        && forall i | 0 <= i < |services[k].instances| :: services[k].healthy[i] == probe(services[k].instances[i])
      ensures totalRequests == old(totalRequests) && successful == old(successful) && failed == old(failed)
      ensures requestsPerSvc == old(requestsPerSvc) && responseTimes == old(responseTimes)
    {
      var k := 0;
      while k < |services|
        modifies this`services
        invariant 0 <= k <= |services| == |old(services)|
        invariant forall j | 0 <= j < |services| ::
          services[j].name == old(services)[j].name && services[j].instances == old(services)[j].instances &&
          services[j].index == old(services)[j].index && |services[j].healthy| == |services[j].instances|
        invariant forall j | 0 <= j < k :: forall i | 0 <= i < |services[j].instances| ::
          services[j].healthy[i] == probe(services[j].instances[i])
      {
        ghost var before := services;
        var i := 0;
        while i < |services[k].instances|
          modifies this`services
          invariant |services| == |before| && 0 <= i <= |services[k].instances|
          invariant forall j | 0 <= j < |services| && j != k :: services[j] == before[j]
          invariant services[k].name == before[k].name && services[k].instances == before[k].instances
          invariant services[k].index == before[k].index && |services[k].healthy| == |services[k].instances|
          invariant forall m | 0 <= m < i :: services[k].healthy[m] == probe(services[k].instances[m])
        {
          var e := services[k];
          services := services[k := e.(healthy := e.healthy[i := probe(e.instances[i])])];
          i := i + 1;
        }
        k := k + 1;
      }
    }

    /**
      `lb_health`: per service, the instance count, the number of healthy
      flags (never more than the instances) and the URLs, plus the counters.
      It reads the state and changes nothing.
    */
    method Health() returns (report: HealthReport)
      requires Valid()
      ensures report.service == DisplayName && report.status == "UP" && report.port == ListenPort
      ensures |report.services| == |services|
      ensures forall k | 0 <= k < |services| ::
        && report.services[k].name == services[k].name
        && report.services[k].instances == |services[k].instances|
        && report.services[k].healthy == multiset(services[k].healthy)[true]
        && report.services[k].healthy <= report.services[k].instances
        && report.services[k].urls == services[k].instances
      ensures report.metrics == MetricsSnapshot(totalRequests, successful, failed, requestsPerSvc, startTime)
    {
      var statuses: seq<ServiceHealth> := [];
      var k := 0;
      while k < |services|
        invariant 0 <= k <= |services|
        invariant |statuses| == k
        invariant forall j | 0 <= j < k ::
          && statuses[j].name == services[j].name
          && statuses[j].instances == |services[j].instances|
          && statuses[j].healthy == multiset(services[j].healthy)[true]
          && statuses[j].healthy <= statuses[j].instances
          && statuses[j].urls == services[j].instances
      {
        var e := services[k];
        CountTrueIsMultiplicity(e.healthy);
        statuses := statuses + [ServiceHealth(e.name, |e.instances|, CountTrue(e.healthy), e.instances)];
        k := k + 1;
      }
      report := HealthReport(DisplayName, "UP", ListenPort, statuses,
        MetricsSnapshot(totalRequests, successful, failed, requestsPerSvc, startTime));
    }

    /**
      `list_services`: per service, its instances, flags, route prefixes and
      request count.  Reading the `defaultdict` counter inserts a zero for every
      service not yet recorded; no count changes and nothing else does.
    */
    method ListServices() returns (report: ServicesReport)
      requires Valid()
      modifies this
      ensures Valid()
      ensures report.success && report.loadBalancer == Strategy
      ensures |report.services| == |services|
      ensures forall k | 0 <= k < |services| ::
        report.services[k] == ServiceListing(services[k].name, services[k].instances,
          services[k].healthy, routes[k].prefixes, Count(requestsPerSvc, services[k].name))
      ensures forall key :: key in requestsPerSvc <==> key in old(requestsPerSvc) || key in ServiceNames(routes)
      ensures forall key :: Count(requestsPerSvc, key) == Count(old(requestsPerSvc), key)
      ensures services == old(services) && responseTimes == old(responseTimes)
      ensures totalRequests == old(totalRequests) && successful == old(successful) && failed == old(failed)
    {
      var listing, counts := ListEntries(services, routes, requestsPerSvc);
      ZerosKeepMetricsValid(ServiceNames(routes), requestsPerSvc, counts,
        responseTimes, successful, failed, totalRequests);
      requestsPerSvc := counts;
      report := ServicesReport(true, Strategy, listing);
    }

    /**
      The metrics update after a forwarded request: the service's count and
      samples grow by one, and exactly one of `successful` (status below 400)
      and `failed` grows by one.
    */
    method Record(name: string, status: int, elapsed: Millis)
      requires Valid() && name in ServiceNames(routes)
      requires successful + failed < totalRequests
      modifies this
      ensures Valid()
      ensures requestsPerSvc == Bumped(old(requestsPerSvc), name)
      ensures responseTimes == Appended(old(responseTimes), name, elapsed)
      ensures successful == old(successful) + (if status < 400 then 1 else 0)
      ensures failed == old(failed) + (if status < 400 then 0 else 1)
      ensures services == old(services) && totalRequests == old(totalRequests)
    {
      var counts, times, s, f := requestsPerSvc, responseTimes, successful, failed;
      requestsPerSvc := Bumped(requestsPerSvc, name);
      responseTimes := Appended(responseTimes, name, elapsed);
      if status < 400 {
        successful := successful + 1;
      } else {
        failed := failed + 1;
      }
      RecordKeepsMetricsValid(ServiceNames(routes), counts, times, s, f, totalRequests, name, status < 400, elapsed);
    }

    /**
      The routed half of `proxy`: pick an instance of the service, forward the
      request to it with the query appended, record the outcome, and answer
      with the backend's body, status and content type and the observability
      headers.
    */
    method Dispatch(name: string, fullPath: string, query: string, verb: string, headers: Headers,
                    data: Bytes, outcome: Outcome, elapsed: Millis)
      returns (reply: Reply, sent: Outbound)
      requires Valid() && Lookup(services, name).Some? && name in ServiceNames(routes)
      modifies this
      ensures Valid()
      ensures totalRequests == old(totalRequests) + 1
      ensures services == Advance(old(services), name).1
      ensures sent == Outbound(TargetUrl(Advance(old(services), name).0.value, fullPath, query),
        verb, FilterHeaders(headers), RequestBody(data))
      ensures
        var resp := MapOutcome(outcome);
        && reply == Relayed(name, resp, elapsed)
        && requestsPerSvc == Bumped(old(requestsPerSvc), name)
        && responseTimes == Appended(old(responseTimes), name, elapsed)
        && successful == old(successful) + (if resp.status < 400 then 1 else 0)
        && failed == old(failed) + (if resp.status < 400 then 0 else 1)
    {
      totalRequests := totalRequests + 1;
      var base := NextInstance(name);
      assert base.Some?;
      var target := TargetUrl(base.value, fullPath, query);
      var forwarded := Forward(target, verb, headers, RequestBody(data), outcome);
      sent := forwarded.0;
      var resp := forwarded.1;
      ghost var picked := services;
      Record(name, resp.status, elapsed);
      assert services == picked;
      reply := Relayed(name, resp, elapsed);
    }

    /**
      `proxy(path)`: count the request; answer 404 listing the service names
      when no route matches; otherwise dispatch it to the matched service.
    */
    method Proxy(path: string, query: string, verb: string, headers: Headers, data: Bytes,
                 outcome: Outcome, elapsed: Millis)
      returns (reply: Reply, sent: Option<Outbound>)
      requires Valid()
      modifies this
      ensures Valid()
      ensures totalRequests == old(totalRequests) + 1
      ensures DetectService(routes, FullPath(path)).None? ==>
        && reply == Unrouted(FullPath(path), routes)
        && reply.Status() == 404
        && sent.None?
        && services == old(services)
        && successful == old(successful) && failed == old(failed)
        && requestsPerSvc == old(requestsPerSvc) && responseTimes == old(responseTimes)
      ensures DetectService(routes, FullPath(path)).Some? ==>
        Lookup(old(services), DetectService(routes, FullPath(path)).value).Some?
      ensures DetectService(routes, FullPath(path)).Some? ==>
        var name := DetectService(routes, FullPath(path)).value;
        && services == Advance(old(services), name).1
        && sent == Some(Outbound(TargetUrl(Advance(old(services), name).0.value, FullPath(path), query),
             verb, FilterHeaders(headers), RequestBody(data)))
      ensures DetectService(routes, FullPath(path)).Some? ==>
        var name := DetectService(routes, FullPath(path)).value;
        && reply == Relayed(name, MapOutcome(outcome), elapsed)
        && requestsPerSvc == Bumped(old(requestsPerSvc), name)
        && responseTimes == Appended(old(responseTimes), name, elapsed)
        && successful == old(successful) + (if MapOutcome(outcome).status < 400 then 1 else 0)
        && failed == old(failed) + (if MapOutcome(outcome).status < 400 then 0 else 1)
    {
      var fullPath := FullPath(path);
      var svc := DetectService(routes, fullPath);
      if svc.None? {
        totalRequests := totalRequests + 1;
        reply := Unrouted(fullPath, routes);
        sent := None;
        return;
      }
      RoutedIsRegistered(fullPath);
      var out;
      reply, out := Dispatch(svc.value, fullPath, query, verb, headers, data, outcome, elapsed);
      sent := Some(out);
    }

    /** A service the router returns has a registry entry. */
    lemma RoutedIsRegistered(path: string)
      requires Valid() && DetectService(routes, path).Some?
      ensures Lookup(services, DetectService(routes, path).value).Some?
      ensures DetectService(routes, path).value in ServiceNames(routes)
    {
      var name := DetectService(routes, path).value;
      var i :| 0 <= i < |routes| && routes[i].service == name;
      assert services[i].name == name;
      LookupMissing(services, name);
      assert ServiceNames(routes)[i] == name;
    }
  }

  /** With every counter at zero the sum is zero. */
  lemma {:induction false} ZeroSum(names: seq<string>)
    ensures SumCounts(map[], names) == 0
  {
    if names != [] {
      ZeroSum(names[1..]);
    }
  }
}
