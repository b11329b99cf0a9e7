/**
  The pure parts of `forward_request`: the header filter applied before the
  outbound call, the outbound request itself, and the mapping from the call's
  outcome to the (body, status, headers) triple the proxy receives.  The network
  call is not modelled; its outcome is an input.
*/
module Forwarder {
  import opened Common
  import JsonText

  type Headers = map<string, string>

  /** Python's `str.lower()` on one character, for the ASCII letters. */
  function LowerChar(c: char): char {
    if 'A' <= c <= 'Z' then (c as int + 32) as char else c
  }

  /** Python's `str.lower()`, ASCII letters only. */
  function Lower(s: string): (r: string)
    ensures |r| == |s|
    ensures forall i | 0 <= i < |s| :: r[i] == LowerChar(s[i])
  {
    seq(|s|, i requires 0 <= i < |s| => LowerChar(s[i]))
  }

  /** A header the forwarder drops: its lower-case form is `host` or `content-length`. */
  predicate IsHopHeader(key: string) {
    Lower(key) == "host" || Lower(key) == "content-length"
  }

  /** The headers replayed to the backend: every header except the hop headers, values unchanged. */
  function FilterHeaders(h: Headers): (r: Headers)
    ensures forall k :: k in r <==> k in h && !IsHopHeader(k)
    ensures forall k | k in r :: r[k] == h[k]
  {
    map k | k in h && !IsHopHeader(k) :: h[k]
  }

  /** Two characters are the same letter up to ASCII case, or the same character. */
  predicate SameIgnoringCase(a: char, b: char) {
    a == b || ('A' <= a <= 'Z' && b as int == a as int + 32) || ('A' <= b <= 'Z' && a as int == b as int + 32)
  }

  /** Case-insensitive equality of header names, stated character by character. */
  predicate EqualIgnoringCase(a: string, b: string) {
    |a| == |b| && forall i | 0 <= i < |a| :: SameIgnoringCase(a[i], b[i])
  }

  /** Lower-casing to a string without capitals is case-insensitive equality with it. */
  lemma LowerIsCaseInsensitive(key: string, target: string)
    requires forall i | 0 <= i < |target| :: !('A' <= target[i] <= 'Z')
    ensures Lower(key) == target <==> EqualIgnoringCase(key, target)
  {
    if EqualIgnoringCase(key, target) {
      forall i | 0 <= i < |key| ensures Lower(key)[i] == target[i] {
        assert SameIgnoringCase(key[i], target[i]);
      }
    }
  }

  /** The filter drops exactly the spellings of `Host` and `Content-Length` in any case. */
  lemma HopHeaderAnyCase(key: string)
    ensures IsHopHeader(key) <==> EqualIgnoringCase(key, "Host") || EqualIgnoringCase(key, "Content-Length")
  {
    LowerIsCaseInsensitive(key, "host");
    LowerIsCaseInsensitive(key, "content-length");
    SameSpelling(key, "Host", "host");
    SameSpelling(key, "Content-Length", "content-length");
  }

  /** Case-insensitive equality with a name does not depend on how the name is capitalised. */
  lemma SameSpelling(key: string, a: string, b: string)
    requires |a| == |b| && forall i | 0 <= i < |a| :: LowerChar(a[i]) == b[i]
    requires forall i | 0 <= i < |b| :: !('A' <= b[i] <= 'Z')
    ensures EqualIgnoringCase(key, a) <==> EqualIgnoringCase(key, b)
  {
    if EqualIgnoringCase(key, a) {
      forall i | 0 <= i < |key| ensures SameIgnoringCase(key[i], b[i]) {
        assert SameIgnoringCase(key[i], a[i]);
      }
    }
    if EqualIgnoringCase(key, b) {
      forall i | 0 <= i < |key| ensures SameIgnoringCase(key[i], a[i]) {
        assert SameIgnoringCase(key[i], b[i]);
      }
    }
  }

  /** Filtering twice drops nothing more: no hop header survives the first pass. */
  lemma FilterIdempotent(h: Headers)
    ensures FilterHeaders(FilterHeaders(h)) == FilterHeaders(h)
    ensures forall k | k in FilterHeaders(h) :: !IsHopHeader(k)
  {
  }

  /** What the backend call produced: the three ways `urlopen` can end. */
  datatype Outcome =
    | Ok(body: Bytes, status: int, headers: Headers)   // a response came back
    | HttpError(body: Bytes, code: int)                // `urllib.error.HTTPError`
    | TransportFailure(msg: string)                     // any other exception, as `str(e)`

  /** The triple `forward_request` returns. */
  datatype BackendReply = BackendReply(body: Bytes, status: int, headers: Headers)

  /** The request `forward_request` hands to `urllib`. */
  datatype Outbound = Outbound(url: Url, verb: string, headers: Headers, body: Option<Bytes>)

  const ServiceUnavailable := 503

  /** The result mapping of `forward_request`'s `try`/`except` arms. */
  function MapOutcome(o: Outcome): (r: BackendReply)
    ensures o.Ok? ==> r == BackendReply(o.body, o.status, o.headers)
    ensures o.HttpError? ==> r.body == o.body && r.status == o.code && r.headers == map[]
    ensures o.TransportFailure? ==> r.status == ServiceUnavailable && r.headers == map[]
  {
    match o
    case Ok(body, status, headers) => BackendReply(body, status, headers)
    case HttpError(body, code) => BackendReply(body, code, map[])
    case TransportFailure(msg) => BackendReply(JsonText.ErrorBody(msg), ServiceUnavailable, map[])
  }

  /**
    A failed call is answered with a JSON object whose `error` member carries
    the exception text, and the text can be read back from the body.
  */
  lemma FailureBodyCarriesMessage(msg: string)
    ensures JsonText.ParseErrorBody(MapOutcome(TransportFailure(msg)).body) == Some(msg)
  {
    JsonText.ErrorBodyRoundTrip(msg);
  }

  /**
    `forward_request(target, method, headers, body)`: the request sent (target,
    method and body unchanged, hop headers dropped) and the reply for the
    outcome of sending it.
  */
  function Forward(target: Url, verb: string, headers: Headers, body: Option<Bytes>, o: Outcome)
    : (r: (Outbound, BackendReply))
    ensures r.0.url == target && r.0.verb == verb && r.0.body == body
    ensures r.0.headers == FilterHeaders(headers)
    ensures r.1 == MapOutcome(o)
  {
    (Outbound(target, verb, FilterHeaders(headers), body), MapOutcome(o))
  }
}
