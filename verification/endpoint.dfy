/**
 The shape of the streaming endpoint both the layout and the provider build:
 `wss://<host>/ws/<service path>`, where `wss` is the secure WebSocket scheme
 of section 3 of RFC 6455 and the service path names the bidirectional
 content-generation service. `HostOf` reads the host back out of such a URI;
 together the two are a bijection between hosts and streaming URIs.
 */
module Endpoint {
  import opened JsValues

  const Scheme: string := "wss://"
  const ServicePath: string := "/ws/google.ai.generativelanguage.v1alpha.GenerativeService.BidiGenerateContent"

  /** The template literal `wss://${host}/ws/...BidiGenerateContent`. */
  function StreamingUri(host: string): string {
    Scheme + host + ServicePath
  }

  /** A URI that starts with the secure WebSocket scheme and ends with the service path. */
  predicate IsStreamingUri(uri: string) {
    |Scheme| + |ServicePath| <= |uri|
    && uri[..|Scheme|] == Scheme
    && uri[|uri| - |ServicePath|..] == ServicePath
  }

  /** The host part of a streaming URI, or undefined for any other string. */
  function HostOf(uri: string): (h: Option<string>)
    ensures h.Some? <==> IsStreamingUri(uri)
    ensures h.Some? ==> |h.value| == |uri| - |Scheme| - |ServicePath|
  {
    if IsStreamingUri(uri) then Some(uri[|Scheme|..|uri| - |ServicePath|]) else None
  }

  /** Every built URI has the streaming shape and gives back the host it was built from. */
  lemma HostOfStreamingUri(host: string)
    ensures IsStreamingUri(StreamingUri(host))
    ensures HostOf(StreamingUri(host)) == Some(host)
  {
  }

  /** Conversely, a URI whose host can be read is exactly the URI built from that host. */
  lemma StreamingUriOfHost(uri: string, host: string)
    requires HostOf(uri) == Some(host)
    ensures StreamingUri(host) == uri
  {
  }

  /** Different hosts give different URIs. */
  lemma StreamingUriInjective(h1: string, h2: string)
    requires StreamingUri(h1) == StreamingUri(h2)
    ensures h1 == h2
  {
    HostOfStreamingUri(h1);
    HostOfStreamingUri(h2);
  }
}
