# Gemini live session front end: connection target and speech hook

This project models, in Dafny, the deterministic core of the web client's
session set-up and speech output:

- **Endpoint** (`endpoint.dfy`): the streaming URI template
  `wss://<host>/ws/google.ai.generativelanguage.v1alpha.GenerativeService.BidiGenerateContent`.
  `wss` is the secure WebSocket scheme of section 3 of RFC 6455. `HostOf`
  reads the host back out of such a URI. The lemmas prove that the template and
  `HostOf` are inverse, so the template is injective.
- **LiveApiProvider** (`live_api_provider.dfy`): the provider's fallbacks.
  - The URL is the `url` prop when it is non-empty; otherwise it is the googleapis default URI.
  - The key is the `apiKey` prop when it is non-empty; otherwise it is the environment key, or `''`.
  - The provider also has a throw guard. The model proves that this guard can never fire.
- **GlobalLayout** (`global_layout.dfy`): the layout's own logic.
  - The defaults for host and API key.
  - The `uri` derived from the host, and the key passed on as `undefined` when it is empty.
  - The target that the provider finally receives.
  - The Start/Disconnect button decision.
  - A `Panel` class holding the host and key. While the session is
    connected the inputs are disabled, so edits are refused. The class also
    records the `connect`/`disconnect` commands the button issues.
- **SpeechHook** (`speech_hook.dfy`): `useSpeechService` as a class whose
  fields are the two state cells, `synthesizer` and `speaking`, plus the
  effect's cleanup.
  - Native synthesizer instances are numeric handles. Building an instance
    takes a fresh handle. Closing one adds its handle to `closed`.
  - The ownership invariant `OwnsAtMostOne` says that every instance is
    closed except, at most, the one the last effect run will clean up.
  - `Speak` is the synchronous part of `speak`. `Settle` is the SDK callback.
    Every callback path clears `speaking`.
- **JsValues** (`js_values.dfy`): the JavaScript rules the above rely on:
  `undefined`, string truthiness, `||` and `typeof`.

Two things the code does not do, which a reader might expect:

- The hook has no queue that serialises `speak` calls. `OverlappingCalls`
  shows that the first call settling clears `speaking` while a second call
  is still in flight.
- The layout has no connection state machine and reports no error for an
  edit made while connected. It only reads a `connected` signal and disables
  the inputs while that signal is true, so such an edit never fires.

## Model

| member | source | states |
|---|---|---|
| `Endpoint.HostOfStreamingUri` | components/global-layout.tsx:187 | every URI built from a host starts with `wss://`, ends with the service path, and gives that host back |
| `Endpoint.StreamingUriOfHost` | components/global-layout.tsx:187 | conversely, any URI whose host can be read equals the URI built from that host |
| `Endpoint.StreamingUriInjective` | components/global-layout.tsx:187 | different hosts give different streaming URIs |
| `LiveApiProvider.ApiKeyConstant` | components/live-api-provider.tsx:13 | `API_KEY` is always a string, and it is empty exactly when the environment key is undefined or empty |
| `LiveApiProvider.Provide` | components/live-api-provider.tsx:9-22 | the provider always renders, never throws; url is the non-empty prop else the default URI; key is the non-empty prop else the environment key or `''` |
| `LiveApiProvider.GuardNeverFires` | components/live-api-provider.tsx:13-16 | the "set NEXT_PUBLIC_GEMINI_API_KEY" guard is false for every prop and environment |
| `LiveApiProvider.DefaultUriIsStreaming` | components/live-api-provider.tsx:10-11 | the default URI has the same scheme and service path as the layout's, with host `generativelanguage.googleapis.com` |
| `LiveApiProvider.EffectiveApiKeyEmpty` | components/live-api-provider.tsx:13-19 | the effective key is empty if and only if both the key prop and the environment key are undefined or empty |
| `GlobalLayout.DefaultHost` | components/global-layout.tsx:168-170 | the default host is the environment host when non-empty, else `coderzc-gemini-play.deno.dev`; it is never empty |
| `GlobalLayout.DefaultApiKey` | components/global-layout.tsx:171-173 | the default key is the environment key, and it is empty exactly when that key is undefined or empty |
| `GlobalLayout.DeriveUri` | components/global-layout.tsx:187 | `uri` is undefined exactly for the empty host; otherwise it is a streaming URI whose host is the given host |
| `GlobalLayout.ButtonAction` | components/global-layout.tsx:131-141 | a click disconnects exactly when connected; it connects exactly when disconnected, validated, and host and key are both non-empty; otherwise it does nothing |
| `GlobalLayout.EffectiveTarget` | components/global-layout.tsx:187-195 | the target the provider receives is always a streaming URI, with the user's host or, for an empty host, the googleapis host; the key is the user's key, or else the environment default |
| `GlobalLayout.Panel.constructor` | components/global-layout.tsx:168-173 | host and key start at their defaults, and no command has been sent |
| `GlobalLayout.Panel.ObserveConnected` | components/global-layout.tsx:68 | the panel's `connected` becomes the session context's value |
| `GlobalLayout.Panel.EditHost` | components/global-layout.tsx:100-110 | an edit is accepted exactly when disconnected; the host changes only then |
| `GlobalLayout.Panel.EditApiKey` | components/global-layout.tsx:112-122 | an edit is accepted exactly when disconnected; the key changes only then |
| `GlobalLayout.Panel.Click` | components/global-layout.tsx:131-141 | the click performs `ButtonAction`; only `connect` or `disconnect` is ever sent, appended to the command log |
| `GlobalLayout.TargetFrozenWhileConnected` | components/global-layout.tsx:103-121 | while connected, edits to host and key leave the provider's target unchanged |
| `SpeechHook.ResolveProps` | vendor/hooks/use-speech-service.ts:11-16 | an undefined prop takes its default (environment key and region, `zh-CN`, `zh-CN-XiaoxiaoNeural`); a defined prop, even `''`, is kept; every render of the hook resolves its props this way |
| `SpeechHook.DefaultsFromEnvironment` | vendor/hooks/use-speech-service.ts:11-31 | with no props, a synthesizer is configured from the environment's key and region with `zh-CN` and `zh-CN-XiaoxiaoNeural`, exactly when both environment values are non-empty |
| `SpeechHook.EmptyKeyPropDisables` | vendor/hooks/use-speech-service.ts:12-24 | a key prop of `''` is kept, not defaulted, so no synthesizer is configured even when the environment holds a key |
| `SpeechHook.BuildConfig` | vendor/hooks/use-speech-service.ts:20-31 | a configuration exists exactly when key and region are both non-empty, and it is built from exactly the key, region, language and voice |
| `SpeechHook.Settlement` | vendor/hooks/use-speech-service.ts:50-64 | the promise resolves exactly on `SynthesizingAudioCompleted`; another reason rejects with its `errorDetails`; the error callback, or a throw from `speakTextAsync` inside the promise executor, rejects with that error |
| `SpeechHook.LiveHandlesAtMostOne` | vendor/hooks/use-speech-service.ts:31-37 | under the ownership invariant, at most one native instance is live: the one the last effect run will close |
| `SpeechHook.SpeechService.constructor` | vendor/hooks/use-speech-service.ts:17-38 | on mount `speaking` is false, no call has been made, and the first (corrected) effect run builds an instance from the resolved props exactly when the resolved key and region are non-empty |
| `SpeechHook.SpeechService.Render` | vendor/hooks/use-speech-service.ts:20-38 | corrected effect; the source as written is `RenderAsWritten`. Same resolved dependencies: nothing changes. Changed dependencies: the previous instance is closed, then a new one is built from the four values, or the synthesizer is cleared; at most one instance stays live and it is the one `speak` uses |
| `SpeechHook.SpeechService.RenderAsWritten` | vendor/hooks/use-speech-service.ts:20-38 | the effect as written: without credentials the previous instance is closed but stays in the `synthesizer` cell |
| `SpeechHook.SpeechService.Unmount` | vendor/hooks/use-speech-service.ts:35-37 | unmounting closes the last instance, so no native instance stays live |
| `SpeechHook.SpeechService.Speak` | vendor/hooks/use-speech-service.ts:40-48 | with no synthesizer: no call is made and `speaking` is unchanged; otherwise `speaking` becomes true and exactly one call with the text goes to the current instance, which, with the corrected effect, is the one live instance |
| `SpeechHook.SpeechService.Issue` | vendor/hooks/use-speech-service.ts:47-48 | the synthesis call is made only once `speaking` is true, and it is appended to the call log |
| `SpeechHook.SpeechService.Settle` | vendor/hooks/use-speech-service.ts:50-64 | every callback path sets `speaking` to false; a throw from `speakTextAsync` leaves it as it was; the promise settles per `Settlement` |
| `SpeechHook.SpeakToCompletion` | vendor/hooks/use-speech-service.ts:40-67 | with no synthesizer the promise resolves at once and `speaking` is unchanged; otherwise the promise settles per `Settlement`, and `speaking` ends false exactly when a callback answered (it stays true only after a throw from `speakTextAsync`) |
| `SpeechHook.OverlappingCalls` | vendor/hooks/use-speech-service.ts:46-63 | two calls issued and one settled leave `speaking` false: calls are not serialised |
| `SpeechHook.StaleSynthesizerWitness` | vendor/hooks/use-speech-service.ts:20-24 | as written: after removing the credentials, `speak` sends a call to a closed instance |
| `SpeechHook.DisabledAfterCredentialsRemoved` | vendor/hooks/use-speech-service.ts:20-24 | corrected: after removing the credentials, `speak` makes no call and `speaking` stays false |

## Findings

| source | as written | input that shows it | evidently intended | confidence | as-written member | corrected member |
|---|---|---|---|---|---|---|
| vendor/hooks/use-speech-service.ts:20-24 | when credentials are missing, the effect returns early without clearing the `synthesizer` cell, and the cleanup of the previous run has already closed that instance | mount with a non-empty key and region, then rerender with the key prop `''` (or undefined while `NEXT_PUBLIC_AZURE_SPEECH_KEY` is unset), then call `speak("hello")` | clear the synthesizer, so that `speak` is the "not initialized" no-op the warning describes | medium, not executed | `SpeechHook.StaleSynthesizerWitness` (via `SpeechHook.SpeechService.RenderAsWritten`) | `SpeechHook.DisabledAfterCredentialsRemoved` (via `SpeechHook.SpeechService.Render`) |

## Left out

- The session connection itself: `connect`, `disconnect` and the `connected` signal. They live in the LiveAPIContext module, which is not part of this model. The panel only records which command it sent, and it takes `connected` as an observed input.
- Form validation: antd's `validateFields()` is an abstract boolean input to `Click`. The "required" rules appear only as `InputsEnabled`: the inputs are required, and editable, only while disconnected.
- Persistence: `useLocalStorageState` and its browser storage are left out. Host and key are plain fields that start at their defaults.
- The Azure Speech SDK: the speech and audio configuration, the native synthesizer and its audio output. An instance is a numeric handle. The SDK's answer to a call is a `SynthesisOutcome` parameter.
- SpeechHook.SpeakToCompletion: assumes the SDK ends every call, through one of its two callbacks or by throwing. A call the SDK never answers leaves `speaking` true for good, and the model does not represent that case.
- SpeechHook.SpeechService.Speak: the asynchronous promise is split into the synchronous `Speak` and a later `Settle`. React's batching of state updates and stale `useCallback` closures are not modelled.
- `console.warn`/`console.error` logging, JSX rendering, styling, menus, router navigation and the collapsible sider: these are presentation with no state of their own.
- Environment variables (`process.env`) are parameters: `SpeechEnv`, and the `envHost`/`envApiKey` arguments.
- A stored host of `undefined`: the layout types its host as possibly undefined, but with a string default and string-only setters it is always a string. The model uses `string`.
