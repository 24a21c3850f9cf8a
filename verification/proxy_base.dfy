/**
 * Request routing for model clients in the web build (`proxyBase.ts`):
 * a request to a loopback host goes out directly; anything else goes to a
 * fixed local proxy endpoint, with three headers naming the real target.
 *
 * The inherited transport (`post`/`get`, with its fetch and retries) is not
 * modelled; each call handed to it is recorded in `sent`.
 */
module ProxyBase {
  import opened Wrappers
  import Json
  import Strings

  const ProxyUrl := "http://localhost:8080/proxy-api/completions"
  const TargetUriHeader := "CHATBOX-TARGET-URI"
  const PlatformHeader := "CHATBOX-PLATFORM"
  const VersionHeader := "CHATBOX-VERSION"

  type Headers = map<string, string>

  /** The caller's AbortSignal, passed through untouched. */
  datatype Signal = Signal(handle: nat)

  datatype Verb = Post | Get

  /** One call of the inherited `post(url, headers, body, signal, retry)` or `get(url, headers, signal, retry)`. */
  datatype Call = Call(verb: Verb, url: string, headers: Headers, body: Option<Json.Value>, signal: Option<Signal>, retry: int)

  /** The hostname contains `sub` somewhere (not necessarily as the whole name). */
  ghost predicate Mentions(host: string, sub: string) {
    exists i: nat :: Strings.OccursAt(host, sub, i)
  }

  /**
   * `shouldUseProxy(url)`, given the hostname `new URL(url)` yields (None
   * when the constructor throws): direct only when the hostname contains
   * "localhost" or "127.0.0.1"; an unparsable URL is proxied.
   */
  function ShouldUseProxy(host: Option<string>): (r: bool)
    ensures !r <==> host.Some? && (Mentions(host.value, "localhost") || Mentions(host.value, "127.0.0.1"))
  {
    match host
    case None => true
    case Some(h) => !Strings.Includes(h, "localhost") && !Strings.Includes(h, "127.0.0.1")
  }

  /** `getProxyHeaders(targetUri, headers)`: the caller's headers with the three CHATBOX headers set. */
  function ProxyHeaders(targetUri: string, headers: Headers): (r: Headers)
    ensures r.Keys == headers.Keys + {TargetUriHeader, PlatformHeader, VersionHeader}
    ensures r[TargetUriHeader] == targetUri && r[PlatformHeader] == "web" && r[VersionHeader] == "web"
    ensures forall name :: name in headers && name !in {TargetUriHeader, PlatformHeader, VersionHeader} ==>
      r[name] == headers[name]
  {
    headers[TargetUriHeader := targetUri][PlatformHeader := "web"][VersionHeader := "web"]
  }

  /** The call `proxyPost`/`proxyGet` hands to the transport. */
  function Routed(verb: Verb, host: Option<string>, targetUri: string, headers: Headers, body: Option<Json.Value>, signal: Option<Signal>, retry: int): (c: Call)
    ensures c.verb == verb && c.body == body && c.signal == signal && c.retry == retry
    ensures !ShouldUseProxy(host) ==> c.url == targetUri && c.headers == headers
    ensures ShouldUseProxy(host) ==> c.url == ProxyUrl && c.headers == ProxyHeaders(targetUri, headers)
  {
    if !ShouldUseProxy(host) then Call(verb, targetUri, headers, body, signal, retry)
    else Call(verb, ProxyUrl, ProxyHeaders(targetUri, headers), body, signal, retry)
  }

  class ProxyClient {
    /** The hostname of `new URL(url)`, or None when the URL does not parse. */
    const hostnameOf: string -> Option<string>
    /** The calls handed to the inherited transport, oldest first. */
    var sent: seq<Call>

    constructor (hostnameOf: string -> Option<string>)
      ensures this.hostnameOf == hostnameOf && sent == []
    {
      this.hostnameOf := hostnameOf;
      sent := [];
    }

    /** `proxyPost`: exactly one `post`, to the target or to the proxy. */
    method ProxyPost(targetUri: string, headers: Headers, body: Json.Value, signal: Option<Signal> := None, retry: int := 3)
      modifies this
      ensures sent == old(sent) + [Routed(Post, hostnameOf(targetUri), targetUri, headers, Some(body), signal, retry)]
    {
      if !ShouldUseProxy(hostnameOf(targetUri)) {
        sent := sent + [Call(Post, targetUri, headers, Some(body), signal, retry)];
        return;
      }
      var proxyHeaders := ProxyHeaders(targetUri, headers);
      sent := sent + [Call(Post, ProxyUrl, proxyHeaders, Some(body), signal, retry)];
    }

    /** `proxyGet`: exactly one `get`, to the target or to the proxy, with no body. */
    method ProxyGet(targetUri: string, headers: Headers, signal: Option<Signal> := None, retry: int := 3)
      modifies this
      ensures sent == old(sent) + [Routed(Get, hostnameOf(targetUri), targetUri, headers, None, signal, retry)]
    {
      if !ShouldUseProxy(hostnameOf(targetUri)) {
        sent := sent + [Call(Get, targetUri, headers, None, signal, retry)];
        return;
      }
      var proxyHeaders := ProxyHeaders(targetUri, headers);
      sent := sent + [Call(Get, ProxyUrl, proxyHeaders, None, signal, retry)];
    }
  }

  /** Omitting signal and retry sends no signal and a retry count of 3. */
  method DefaultRetry(client: ProxyClient, targetUri: string, headers: Headers, body: Json.Value)
    modifies client
    ensures |client.sent| == |old(client.sent)| + 2
    ensures client.sent[|client.sent| - 2].retry == 3 && client.sent[|client.sent| - 1].retry == 3
    ensures client.sent[|client.sent| - 2].signal.None? && client.sent[|client.sent| - 1].signal.None?
  {
    client.ProxyPost(targetUri, headers, body);
    client.ProxyGet(targetUri, headers);
  }

  /** Loopback hostnames go direct, public ones and unparsable URLs through the proxy. */
  lemma {:induction false} RoutingExamples()
    ensures !ShouldUseProxy(Some("localhost"))
    ensures !ShouldUseProxy(Some("127.0.0.1"))
    ensures ShouldUseProxy(Some("api.example.com"))
    ensures ShouldUseProxy(None)
  {
    assert Strings.OccursAt("localhost", "localhost", 0);
    assert Strings.OccursAt("127.0.0.1", "127.0.0.1", 0);
    assert !Mentions("api.example.com", "localhost") by {
      forall i: nat ensures !Strings.OccursAt("api.example.com", "localhost", i) {
        if i + 9 <= 15 {
          assert "api.example.com"[i] != "localhost"[0];
        }
      }
    }
    assert !Mentions("api.example.com", "127.0.0.1") by {
      forall i: nat ensures !Strings.OccursAt("api.example.com", "127.0.0.1", i) {
        if i + 9 <= 15 {
          assert "api.example.com"[i] != "127.0.0.1"[0];
        }
      }
    }
  }

  /**
   * The loopback test is substring containment, so a public host whose
   * name merely contains "localhost" is reached directly, not via the proxy.
   */
  lemma {:induction false} ContainmentNotEquality()
    ensures !ShouldUseProxy(Some("localhost.example.com"))
    ensures !ShouldUseProxy(Some("my-127.0.0.1.nip.io"))
  {
    assert Strings.OccursAt("localhost.example.com", "localhost", 0);
    assert Strings.OccursAt("my-127.0.0.1.nip.io", "127.0.0.1", 3);
  }
}
