/**
  Client scenarios: what a caller can conclude from the contracts of
  `LoadBalancer` alone, for the request and health behaviours the system
  promises.
*/
module Scenarios {
  import opened Common
  import opened Router
  import opened Forwarder
  import opened RoundRobin
  import opened Balancer
  import opened Tally

  /**
    A backend answering 201 to `POST /contributions` makes the proxy answer
    201 with the same body, served by `contribution`, counted as a success.
  */
  method CreatedContribution(body: Bytes, elapsed: Millis) {
    var lb := new LoadBalancer("2024-01-01T00:00:00");
    assert "/" + "contributions" == "/contributions";
    ContributionRouting("/contributions");
    var backend := Ok(body, 201, map["Content-Type" := "application/json"]);
    assert MapOutcome(backend) == BackendReply(body, 201, map["Content-Type" := "application/json"]);
    var reply, sent := lb.Proxy("contributions", "", "POST", map[], body, backend, elapsed);
    assert reply.status == 201;
    assert lb.successful == 1 && lb.failed == 0;
  }

  /**
    A path whose first character starts no route prefix (such as
    `unknown-xyz`) is answered 404 and only the total moves.
  */
  method UnknownPath(path: string, headers: Headers, outcome: Outcome, elapsed: Millis)
    requires |path| > 0
    requires path[0] !in "mclnsidpr"
  {
    var lb := new LoadBalancer("2024-01-01T00:00:00");
    assert ("/" + path)[1] == path[0];
    NoRouteOwns("/" + path);
    DetectServiceFirstMatch(ServiceRoutes, "/" + path);
    var reply, sent := lb.Proxy(path, "", "GET", headers, [], outcome, elapsed);
    assert reply.Status() == 404 && sent == None;
    assert lb.totalRequests == 1 && lb.successful == 0 && lb.failed == 0;
  }

  /**
    An instance that stops answering is marked unhealthy by the next sweep,
    its neighbours stay healthy, and the health summary counts it out.
  */
  method Outage() {
    var lb := new LoadBalancer("2024-01-01T00:00:00");
    lb.HealthSweep(url => url != "http://localhost:5003");
    assert !lb.services[2].healthy[0] && lb.services[0].healthy[0];
    var report := lb.Health();
    assert report.services[2].healthy == 0;
  }

  /**
    Whatever the flags were, the first sweep in which every instance answers
    marks every instance healthy again, and the summary counts them all in.
  */
  method Recovery(lb: LoadBalancer)
    requires lb.Valid()
    modifies lb
  {
    lb.HealthSweep(url => true);
    assert forall k, i | 0 <= k < |lb.services| && 0 <= i < |lb.services[k].healthy| :: lb.services[k].healthy[i];
    var report := lb.Health();
    forall k | 0 <= k < |lb.services|
      ensures report.services[k].healthy == report.services[k].instances
    {
      CountTrueIsMultiplicity(lb.services[k].healthy);
      CountTrueExtremes(lb.services[k].healthy);
    }
  }

  /**
    K consecutive `get_next_instance` calls for one service return the
    instances in the order `Rotation` describes, and leave the cursor where
    `After` says; so the fairness of `Rotation` is a property of the calls.
  */
  method ConsecutivePicks(lb: LoadBalancer, name: string, k: nat) returns (picked: seq<Url>)
    requires lb.Valid() && Lookup(lb.services, name).Some?
    modifies lb
    ensures lb.Valid()
    ensures
      var i := Lookup(old(lb.services), name).value;
      var e := old(lb.services)[i];
      && picked == Rotation(e.instances, e.index, k)
      && lb.services == old(lb.services)[i := e.(index := After(e.index, |e.instances|, k))]
  {
    ghost var i := Lookup(lb.services, name).value;
    ghost var e := lb.services[i];
    ghost var n := |e.instances|;
    picked := [];
    var j := 0;
    while j < k
      invariant 0 <= j <= k && lb.Valid()
      invariant lb.services == old(lb.services)[i := e.(index := After(e.index, n, j))]
      invariant Lookup(lb.services, name) == Some(i)
      invariant picked == Rotation(e.instances, e.index, j)
    {
      var url := lb.NextInstance(name);
      RotationSplit(e.instances, e.index, j, 1);
      AfterSplit(e.index, n, j, 1);
      LookupSameNames(lb.services, old(lb.services), name);
      picked := picked + [url.value];
      j := j + 1;
    }
  }

  /**
    K consecutive `get_next_instance` calls for a service whose instances are
    distinct give each instance between floor(K/n) and ceil(K/n) of them.
  */
  method FairShare(lb: LoadBalancer, name: string, k: nat) returns (picked: seq<Url>)
    requires lb.Valid() && Lookup(lb.services, name).Some?
    requires Distinct(lb.services[Lookup(lb.services, name).value].instances)
    modifies lb
    ensures lb.Valid()
    ensures
      var e := old(lb.services)[Lookup(old(lb.services), name).value];
      var n := |e.instances|;
      forall j | 0 <= j < n :: k / n <= multiset(picked)[e.instances[j]] <= k / n + (if k % n == 0 then 0 else 1)
  {
    ghost var e := lb.services[Lookup(lb.services, name).value];
    picked := ConsecutivePicks(lb, name, k);
    forall j | 0 <= j < |e.instances|
      ensures k / |e.instances| <= multiset(picked)[e.instances[j]] <= k / |e.instances| + (if k % |e.instances| == 0 then 0 else 1)
    {
      InstancesAreFair(e.instances, e.index, k, j);
    }
  }
}
