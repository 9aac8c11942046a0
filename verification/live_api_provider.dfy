/**
 `LiveAPIProvider` (components/live-api-provider.tsx): the outer provider that
 fills in the connection target handed to the session context. A non-empty
 `url` prop wins over the googleapis default URI; a non-empty `apiKey` prop
 wins over the key from the environment (or the empty string). The render
 also carries a guard that throws when no key is available; the model shows
 that guard can never fire.
 */
module LiveApiProvider {
  import opened JsValues
  import opened Endpoint

  const GoogleHost: string := "generativelanguage.googleapis.com"

  /** `defaultUri`: the streaming URI of the public googleapis host. */
  const DefaultUri: string := StreamingUri(GoogleHost)

  /** What rendering the provider does: throw, or render the session context with a target. */
  datatype Rendering = Threw(message: string) | Rendered(url: string, apiKey: string)

  /** `API_KEY`: the environment key, or `''` when it is undefined or empty. */
  function ApiKeyConstant(envApiKey: Option<string>): (v: JsValue)
    ensures TypeOf(v) == "string"
    ensures v.s == "" <==> !Truthy(envApiKey)
  {
    JsString(Or(envApiKey, ""))
  }

  /** The throw guard: no key prop and a key constant that is not a string. */
  predicate GuardFires(propApiKey: Option<string>, apiKey: JsValue) {
    !Truthy(propApiKey) && TypeOf(apiKey) != "string"
  }

  /** One render of the provider, given its props and the environment key. */
  function Provide(propUrl: Option<string>, propApiKey: Option<string>, envApiKey: Option<string>): (r: Rendering)
    ensures r.Rendered?
    ensures r.url == (if Truthy(propUrl) then propUrl.value else DefaultUri)
    ensures r.apiKey == (if Truthy(propApiKey) then propApiKey.value else Or(envApiKey, ""))
  {
    var key := ApiKeyConstant(envApiKey);
    if GuardFires(propApiKey, key) then
      Threw("set NEXT_PUBLIC_GEMINI_API_KEY in .env")
    else
      Rendered(Or(propUrl, DefaultUri), if Truthy(propApiKey) then propApiKey.value else key.s)
  }

  /** The guard is dead code: after `|| ''` the key constant is always a string. */
  lemma GuardNeverFires(propApiKey: Option<string>, envApiKey: Option<string>)
    ensures !GuardFires(propApiKey, ApiKeyConstant(envApiKey))
  {
  }

  /** The default URI has the streaming shape, and its host is the googleapis host. */
  lemma DefaultUriIsStreaming()
    ensures IsStreamingUri(DefaultUri)
    ensures HostOf(DefaultUri) == Some(GoogleHost)
  {
    HostOfStreamingUri(GoogleHost);
  }

  /** The effective key is empty exactly when neither the prop nor the environment supplies one. */
  lemma EffectiveApiKeyEmpty(propUrl: Option<string>, propApiKey: Option<string>, envApiKey: Option<string>)
    ensures Provide(propUrl, propApiKey, envApiKey).apiKey == "" <==> !Truthy(propApiKey) && !Truthy(envApiKey)
  {
  }
}
