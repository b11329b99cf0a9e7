# Chama load balancer — a Dafny model

This project models the core of the Chama load balancer (`load_balancer.py`).
The load balancer is a path-based reverse proxy in front of six backend
services: `member`, `contribution`, `loan`, `notification`, `savings` and
`report`. Each service owns one or more path prefixes and has a list of
instances.

For each request the proxy:

- finds the first service whose prefix starts the path;
- picks one of its instances round-robin;
- forwards the request with the `Host` and `Content-Length` headers dropped;
- records the outcome in its metrics;
- relays the backend's answer with three observability headers.

A background sweep probes every instance and sets its health flag.
`/health` and `/services` summarise the registry and the metrics.

The model is organised as follows:

- `common.dfy`: `Option`, bytes and URLs.
- `router.dfy` (`Router`): the route table `SERVICE_ROUTES` as an ordered
  sequence, and `detect_service` as a first-match search over it.
- `roundrobin.dfy` (`RoundRobin`): the selection rule of `get_next_instance`
  as functions of the cursor. It proves what runs of consecutive selections
  return: one full round hands out every instance once, and any K selections
  over n distinct instances give each instance between floor(K/n) and
  ceil(K/n) of them.
- `forwarder.dfy` (`Forwarder`): the header filter of `forward_request`, the
  outbound request, and the mapping of the three ways the backend call can
  end (a response, an `HTTPError`, any other exception) to the
  (body, status, headers) triple.
- `json.dfy` (`JsonText`): `json.dumps({"error": msg}).encode()` with Python's
  default ASCII escaping, and a decoder proved to be its left inverse. The
  503 body therefore carries the exception text recoverably, and distinct
  texts give distinct bodies.
- `tally.dfy` (`Tally`): `sum()` over health flags, `defaultdict(int)` reads
  and increments, and sums of the per-service counters.
- `balancer.dfy` (`Balancer`): a `LoadBalancer` class whose fields are
  `SERVICES` and `metrics`. Its methods update the fields in place:
  - `NextInstance`: `get_next_instance`;
  - `HealthSweep`: one pass of `health_check_loop`;
  - `Health`: `lb_health`;
  - `ListServices`: `list_services`;
  - `Record`: the metrics update;
  - `Dispatch`: the routed half of `proxy`;
  - `Proxy`: `proxy`.

  `Valid()` is the class invariant. It says that:
  - the registry matches the route table entry by entry;
  - every cursor is in range and every flag list has one flag per instance;
  - only registered services are counted, and each has one sample per
    counted request;
  - `successful + failed` equals the sum of the per-service counters and is
    at most `total_requests`.

  Every method keeps `Valid()`.
- `scenarios.dfy` (`Scenarios`): client code that uses only the contracts to
  reach the behaviours the system promises:
  - a `POST /contributions` answered 201 is relayed as 201 and counted as a
    success;
  - an unknown path is answered 404 and only the total moves;
  - an unreachable instance is marked unhealthy by the next sweep, and every
    instance is healthy again after a sweep in which all answer;
  - K consecutive picks follow the rotation and are fair.

The backend call, the health probe and the measured time are inputs:

- an `Outcome` value;
- a `Url -> bool` probe;
- an opaque `Millis` value.

The model follows the code where its behaviour is easy to miss:

- `total_requests` also counts requests that matched no route. So
  `total_requests == successful + failed` does not hold in general. What
  holds is `successful + failed == sum(requests_per_svc) <= total_requests`,
  which is kept by every method.
- An `HTTPError` reply is relayed with an empty header map, and of a
  successful reply only `Content-Type` is relayed. The lookup is
  case-sensitive, with `application/json` as the default.
- The health flags are never consulted when picking an instance.
- Prefix matching is plain `startswith`, so `/membership` routes to `member`.
- The 404 body's `available_paths` lists the service names, not the path
  prefixes.
- `list_services` reads `requests_per_svc[name]` through a `defaultdict`, so
  the read inserts a zero counter for every service not yet counted. The
  model makes it a state-changing method whose counts all stay the same.

## Model

| member | source | states |
|---|---|---|
| Router.DetectService | load_balancer.py:65-70 | a service found by the search is the service of some route in the table |
| Router.DetectServiceFirstMatch | load_balancer.py:65-70 | the route picked owns the path (one of its prefixes starts it) and no earlier route owns it; no service is found exactly when no route owns the path |
| Router.AnyPrefix | load_balancer.py:67-68 | true exactly when some prefix of the route starts the path |
| Router.ServiceNames | load_balancer.py:133 | `list(SERVICE_ROUTES.keys())`: one name per route, in table order |
| Router.MemberRouting | load_balancer.py:26-27 | `/members` and `/membership` both route to `member` |
| Router.ContributionRouting | load_balancer.py:28 | every path starting with `/contributions` routes to `contribution` |
| Router.SavingsRouting | load_balancer.py:31 | `/savings`, `/investments`, `/dividends` and `/portfolio` all route to `savings` |
| Router.NoRouteOwns | load_balancer.py:26-33 | a path whose second character starts none of the table's prefixes is owned by no route |
| Router.UnknownRouting | load_balancer.py:65-70 | `/unknown-xyz` is not routed |
| RoundRobin.Pick | load_balancer.py:49 | the position picked is in range |
| RoundRobin.Step | load_balancer.py:50 | the stored cursor is in range and is the picked position plus one, wrapping to 0 after the last |
| RoundRobin.RotationSplit | load_balancer.py:46-51 | a run of a + b selections is the run of a followed by the run of b started from where the first left the cursor |
| RoundRobin.AfterSplit | load_balancer.py:50 | the cursor after a + b selections is the cursor after b selections started from the cursor after a |
| RoundRobin.FullRound | load_balancer.py:46-51 | n selections over n instances return the list rotated to the cursor, a permutation of the instances, and bring the cursor back to its normalised start |
| RoundRobin.RoundHitsOnce | load_balancer.py:46-51 | one full round returns each position exactly once |
| RoundRobin.ShortRunFair | load_balancer.py:46-51 | fewer than n selections never return a position twice |
| RoundRobin.RoundsAreFair | load_balancer.py:46-51 | q rounds and r < n more selections return each position q or q + 1 times, exactly q times when r = 0 |
| RoundRobin.RunIsFair | load_balancer.py:46-51 | any K selections return each position between floor(K/n) and ceil(K/n) times |
| RoundRobin.InstanceHits | load_balancer.py:46-51 | over distinct instances, an instance is returned as often as its position |
| RoundRobin.InstancesAreFair | load_balancer.py:46-51 | any K selections over n distinct instances return each instance between floor(K/n) and ceil(K/n) times |
| Forwarder.Lower | load_balancer.py:56 | `str.lower()` keeps the length and lowers each ASCII capital |
| Forwarder.FilterHeaders | load_balancer.py:55-56 | a header is kept exactly when it is not a hop header, with its value unchanged |
| Forwarder.LowerIsCaseInsensitive | load_balancer.py:56 | comparing the lowered name with a lower-case target is case-insensitive equality with it |
| Forwarder.HopHeaderAnyCase | load_balancer.py:56 | the dropped headers are exactly the spellings of `Host` and `Content-Length` in any letter case |
| Forwarder.FilterIdempotent | load_balancer.py:55-56 | no hop header survives the filter, so filtering again changes nothing |
| Forwarder.MapOutcome | load_balancer.py:58-63 | a response passes body, status and headers through; an `HTTPError` keeps body and code with no headers; any other failure is a 503 with no headers |
| Forwarder.FailureBodyCarriesMessage | load_balancer.py:62-63 | the 503 body decodes back to the exception text |
| Forwarder.Forward | load_balancer.py:53-63 | the request sent has the target, method and body unchanged and the filtered headers; the reply is the outcome's mapping |
| JsonText.Escape | load_balancer.py:63 | the escaped text is printable ASCII only |
| JsonText.EscapeChar | load_balancer.py:63 | each character is written as a non-empty printable ASCII escape |
| JsonText.UnescapeEscapeChar | load_balancer.py:63 | decoding a character's escape followed by any text yields that character first |
| JsonText.UnescapeEscape | load_balancer.py:63 | decoding the escaped text gives back the original string |
| JsonText.SurrogatePair | load_balancer.py:63 | a character above U+FFFF splits into a high and a low surrogate that recombine to it |
| JsonText.ParseHex4Hex4 | load_balancer.py:63 | four lower-case hex digits read back as the number written |
| JsonText.ErrorBody | load_balancer.py:63 | the 503 body is printable ASCII and at least as long as its fixed frame |
| JsonText.ErrorBodyRoundTrip | load_balancer.py:63 | the error message is read back from the body |
| JsonText.ErrorBodyInjective | load_balancer.py:63 | different messages give different bodies |
| Tally.CountTrue | load_balancer.py:94 | `sum(healthy)` is at most the number of flags |
| Tally.CountTrueIsMultiplicity | load_balancer.py:94 | `sum(healthy)` is the number of `True` flags |
| Tally.CountTrueExtremes | load_balancer.py:94 | all flags true gives the instance count; all false gives 0 |
| Tally.Bumped | load_balancer.py:145 | `requests_per_svc[name] += 1` raises that counter by one and no other |
| Tally.SumCountsIncrement | load_balancer.py:145 | raising one registered counter raises the sum over registered names by one |
| Tally.SumCountsUnchanged | load_balancer.py:119 | the sum depends only on the counts of the listed names |
| Balancer.Lookup | load_balancer.py:48 | a position found holds an entry with that name |
| Balancer.LookupMissing | load_balancer.py:48 | the lookup fails (the `KeyError`) exactly when no entry has the name |
| Balancer.LookupSameNames | load_balancer.py:48 | the lookup depends only on the entries' names, so cursor and flag updates do not move it |
| Balancer.Advance | load_balancer.py:46-51 | an instance is returned exactly when the name is registered; every entry keeps its name and stays well formed |
| Balancer.FullPath | load_balancer.py:125 | `"/" + path` is the path behind one leading slash |
| Balancer.Unrouted | load_balancer.py:131-133 | the answer for an unmatched path has status 404 |
| Balancer.TargetUrl | load_balancer.py:137 | the target starts with base and full path and ends with `?query` exactly when the query is non-empty |
| Balancer.TargetUrlSplits | load_balancer.py:137 | for a full path without `?`, splitting the target after the base at its first `?` gives back the full path and the query |
| Balancer.Relayed | load_balancer.py:154-158 | the reply carries the backend's body and its own status (a backend error is not masked), the content type, and the served-by, time and identity headers |
| Balancer.ContentType | load_balancer.py:154 | the backend's `Content-Type` value when that exact key is present, otherwise `application/json` |
| Balancer.RequestBody | load_balancer.py:138 | no body is sent exactly when the request body is empty; otherwise the body is sent unchanged |
| Balancer.Appended | load_balancer.py:146 | `response_times[name].append(elapsed)` adds one sample to that service and changes no other |
| Balancer.RecordKeepsMetricsValid | load_balancer.py:144-150 | recording a request for a registered service keeps the counters consistent |
| Balancer.ZerosKeepMetricsValid | load_balancer.py:119 | inserting zero counters for registered services keeps the counters consistent |
| Balancer.StaticNamesDistinct | load_balancer.py:26-33 | no service name occurs twice in the route table |
| Balancer.ZeroSum | load_balancer.py:36-43 | with no counters the sum is 0 |
| Balancer.ListEntries | load_balancer.py:113-120 | one listing per registry entry with its instances, flags, prefixes and request count; the counter map gains exactly the missing registered names and no count changes |
| Balancer.LoadBalancer.constructor | load_balancer.py:17-43 | the static registry and route table, zeroed metrics, and the class invariant |
| Balancer.LoadBalancer.NextInstance | load_balancer.py:46-51 | the instance and new registry are those of `Advance`: the instance at the cursor modulo the instance count, and only that entry's cursor advanced; an unknown name changes nothing; metrics unchanged |
| Balancer.LoadBalancer.HealthSweep | load_balancer.py:75-82 | every flag of every service becomes the probe result for its instance; names, instances, cursors and metrics unchanged |
| Balancer.LoadBalancer.Health | load_balancer.py:89-109 | one summary per service with instance count, healthy count (the number of `True` flags, never above the instance count) and URLs, and the current metrics |
| Balancer.LoadBalancer.ListServices | load_balancer.py:111-121 | one listing per service with instances, flags, prefixes and count; only zero counters for missing services are added; every count and all other state unchanged |
| Balancer.LoadBalancer.Record | load_balancer.py:144-150 | the service's count and samples grow by one; `successful` grows when the status is below 400, `failed` otherwise |
| Balancer.LoadBalancer.Dispatch | load_balancer.py:135-158 | counts the request, advances the cursor as `Advance` does, sends to base + path (+ `?query`) with filtered headers and `get_data() or None`, records the mapped outcome and relays its body, status and content type with the served-by, time and identity headers |
| Balancer.LoadBalancer.Proxy | load_balancer.py:124-158 | the total grows by one; an unrouted path gets the 404 with the path and service names, and nothing else changes; a routed path is dispatched to the first matching service, which is always registered |
| Balancer.LoadBalancer.RoutedIsRegistered | load_balancer.py:126-135 | a service the router returns has a registry entry, so `SERVICES[svc_name]` cannot fail |
| Scenarios.ConsecutivePicks | load_balancer.py:46-51 | K consecutive picks return the rotation from the cursor and leave the cursor where K steps take it |
| Scenarios.FairShare | load_balancer.py:46-51 | K consecutive picks over distinct instances give each instance between floor(K/n) and ceil(K/n) of them |

## Left out

- The HTTP layer is not modelled: Flask routing, `jsonify`, `Response`, and
  reading the method, headers, query string and body from `request`. Replies
  are datatypes holding the fields the handlers put in the JSON or the
  response headers.
- The backend call is not modelled. The `urllib` call and its 5-second
  timeout are replaced by the `Outcome` input, which stands for the three
  ways the call can end; the exception text is an input string.
- The health probe is not modelled. It and its 2-second timeout become a
  `Url -> bool` parameter; `HealthSweep` is one pass of the loop.
- The endless `while True` loop, the 10-second `sleep` and the background
  thread are not modelled.
- The clock is not modelled: `time.time()`, `round(..., 2)` and
  `datetime.now()`. The elapsed time is an opaque `real` input and the start
  time a string input.
- The `X-Response-Time` value is carried as the elapsed number, not as its
  formatted text.
- Concurrency and the lock are not modelled. Every method is one sequential
  step, so the interleavings of concurrent requests with each other and
  with the sweep are not covered. Fairness is proved for consecutive picks
  only.
- The log line and the `__main__` banner are left out because they print
  only.
- Forwarder.Lower: lowers ASCII capitals only, where Python's `str.lower()`
  also lowers other scripts. This is exact for the filter: no non-ASCII
  character lowers to a letter of `host` or `content-length`.
- JsonText.Escape: covers Unicode scalar values only. Python strings may also
  hold lone surrogates, which cannot occur in a Dafny `char`.
- Balancer.TargetUrlSplits: holds only for paths without `?`. The web
  framework percent-decodes the path, so a request to `/members%3Fx=1`
  reaches `proxy` with the path `members?x=1`. That path still routes to
  `member`, but its `?` becomes the target's query separator. The backend
  then sees the path `/members` and a query the client did not send.
- Balancer.LoadBalancer.Proxy: counts the request inside each branch instead
  of before the branch; the sequential effect is the same.
- Balancer.LoadBalancer.ListServices: reads `requests_per_svc` through a
  local copy and assigns the copy back with the inserted zeros.
