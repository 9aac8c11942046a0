/**
 `GlobalLayout` and its `MenuContent` panel (components/global-layout.tsx):
 the host and API key the user edits, the streaming URI derived from the
 host, the target handed to the provider, and the Start/Disconnect button.
 The session's `connected` signal and its `connect`/`disconnect` commands
 belong to the session context, which is not part of this model: the panel
 only reads the signal and records which command it issued.
 */
module GlobalLayout {
  import opened JsValues
  import opened Endpoint
  import LiveApiProvider

  const FallbackHost: string := "coderzc-gemini-play.deno.dev"

  /** The host's default value: `NEXT_PUBLIC_GEMINI_HOST || 'coderzc-gemini-play.deno.dev'`. */
  function DefaultHost(envHost: Option<string>): (h: string)
    ensures h != ""
    ensures Truthy(envHost) ==> h == envHost.value
    ensures !Truthy(envHost) ==> h == FallbackHost
  {
    Or(envHost, FallbackHost)
  }

  /** The API key's default value: `NEXT_PUBLIC_GEMINI_API_KEY || ''`. */
  function DefaultApiKey(envApiKey: Option<string>): (k: string)
    ensures k == "" <==> !Truthy(envApiKey)
    ensures k != "" ==> k == envApiKey.value
  {
    Or(envApiKey, "")
  }

  /** `uri`: the streaming URI of a non-empty host, undefined for the empty host. */
  function DeriveUri(host: string): (uri: Option<string>)
    ensures uri.None? <==> host == ""
    ensures uri.Some? ==> IsStreamingUri(uri.value) && HostOf(uri.value) == Some(host)
  {
    HostOfStreamingUri(host);
    if host == "" then None else Some(StreamingUri(host))
  }

  /** What a click on the Start/Disconnect button makes the panel do. */
  datatype Action = Disconnect | Connect | Nothing

  /**
   The click handler: disconnect when connected; otherwise connect only when
   the form validated and both host and key are non-empty.
   */
  function ButtonAction(connected: bool, validationOk: bool, host: string, apiKey: string): (a: Action)
    ensures a == Disconnect <==> connected
    ensures a == Connect <==> !connected && validationOk && host != "" && apiKey != ""
  {
    if connected then Disconnect
    else if validationOk && host != "" && apiKey != "" then Connect
    else Nothing
  }

  /** The host and key inputs are editable, and required, only while disconnected. */
  predicate InputsEnabled(connected: bool) {
    !connected
  }

  /** The target the provider renders the session context with, given the layout's state. */
  function EffectiveTarget(host: string, apiKey: string, envApiKey: Option<string>): (t: LiveApiProvider.Rendering)
    ensures t.Rendered?
    ensures IsStreamingUri(t.url)
    ensures HostOf(t.url) == Some(if host != "" then host else LiveApiProvider.GoogleHost)
    ensures t.apiKey == (if apiKey != "" then apiKey else DefaultApiKey(envApiKey))
  {
    LiveApiProvider.DefaultUriIsStreaming();
    LiveApiProvider.Provide(DeriveUri(host), OrUndefined(apiKey), envApiKey)
  }

  /**
   The layout's edit state: the host and key (kept in local storage by the
   source, plain fields here), the session's `connected` signal as last
   observed, and the commands the button has sent to the session.
   */
  class Panel {
    var host: string
    var apiKey: string
    var connected: bool
    var commands: seq<Action>

    /** Nothing but `Connect` and `Disconnect` is ever sent to the session. */
    ghost predicate Valid()
      reads this
    {
      forall i :: 0 <= i < |commands| ==> commands[i] != Nothing
    }

    /** First render: host and key take their defaults. */
    constructor (envHost: Option<string>, envApiKey: Option<string>, connected: bool)
      ensures Valid()
      ensures host == DefaultHost(envHost) && apiKey == DefaultApiKey(envApiKey)
      ensures this.connected == connected && commands == []
    {
      host := DefaultHost(envHost);
      apiKey := DefaultApiKey(envApiKey);
      this.connected := connected;
      commands := [];
    }

    /** The session context reports a new `connected` value. */
    method ObserveConnected(c: bool)
      modifies this`connected
      ensures connected == c
    {
      connected := c;
    }

    /** Typing in the host input: a disabled input (while connected) fires nothing. */
    method EditHost(value: string) returns (accepted: bool)
      modifies this`host
      ensures accepted == InputsEnabled(connected)
      ensures host == (if accepted then value else old(host))
    {
      accepted := InputsEnabled(connected);
      if accepted {
        host := value;
      }
    }

    /** Typing in the key input: a disabled input (while connected) fires nothing. */
    method EditApiKey(value: string) returns (accepted: bool)
      modifies this`apiKey
      ensures accepted == InputsEnabled(connected)
      ensures apiKey == (if accepted then value else old(apiKey))
    {
      accepted := InputsEnabled(connected);
      if accepted {
        apiKey := value;
      }
    }

    /** A click on the button, with the outcome of the form's validation. */
    method Click(validationOk: bool) returns (action: Action)
      requires Valid()
      modifies this`commands
      ensures Valid()
      ensures action == ButtonAction(connected, validationOk, host, apiKey)
      ensures commands == (if action == Nothing then old(commands) else old(commands) + [action])
    {
      action := ButtonAction(connected, validationOk, host, apiKey);
      if action != Nothing {
        commands := commands + [action];
      }
    }

    /** The target the provider currently receives. */
    function Target(envApiKey: Option<string>): (t: LiveApiProvider.Rendering)
      reads this
    {
      EffectiveTarget(host, apiKey, envApiKey)
    }
  }

  /** While connected no edit reaches the state, so the target stays what it was. */
  method TargetFrozenWhileConnected(p: Panel, newHost: string, newKey: string, envApiKey: Option<string>)
    returns (before: LiveApiProvider.Rendering, after: LiveApiProvider.Rendering)
    requires p.connected
    modifies p
    ensures before == after
  {
    before := p.Target(envApiKey);
    var _ := p.EditHost(newHost);
    var _ := p.EditApiKey(newKey);
    after := p.Target(envApiKey);
  }
}
