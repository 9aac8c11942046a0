/**
 `useSpeechService` (vendor/hooks/use-speech-service.ts): a hook that keeps
 one speech synthesizer bound to (subscription key, region, language, voice)
 and a `speaking` flag.

 The synthesizer SDK is abstract here. Building an instance hands out a fresh
 numeric handle, closing one adds its handle to `closed`, and a synthesis
 call is recorded in `requests`. The SDK's answer to a call is the
 `SynthesisOutcome` that `Settle` is given. React's effect, as the hook
 writes it, is `RenderAsWritten`: when the four dependencies differ from the
 previous run, the previous run's instance is closed and a new one is built if
 key and region are present, while without them the `synthesizer` cell is left
 holding the closed instance. `Render` is the corrected effect, which also
 clears the cell; the class's other members use it.
 */
module SpeechHook {
  import opened JsValues

  const DefaultLanguage: string := "zh-CN"
  const DefaultVoice: string := "zh-CN-XiaoxiaoNeural"

  /** The hook's props as given; a missing prop is `undefined`. */
  datatype HookProps = HookProps(subscriptionKey: Option<string>, region: Option<string>,
                                 language: Option<string>, voice: Option<string>)

  /** The Azure key and region from the environment. */
  datatype SpeechEnv = SpeechEnv(azureKey: Option<string>, azureRegion: Option<string>)

  /** The props after parameter defaults: the effect's dependency list. */
  datatype Deps = Deps(subscriptionKey: Option<string>, region: Option<string>, language: string, voice: string)

  /** The configuration a synthesizer is built from. */
  datatype SpeechConfig = SpeechConfig(subscriptionKey: string, region: string, language: string, voice: string)

  /** A built synthesizer: its configuration and the handle of its native instance. */
  datatype Synthesizer = Synthesizer(config: SpeechConfig, handle: nat)

  /** One call into the synthesizer: the instance it went to and the text. */
  datatype Request = Request(handle: nat, text: string)

  datatype ResultReason = SynthesizingAudioCompleted | Canceled | OtherReason(code: nat)

  /**
   How a synthesis call ends: the result callback, the error callback, or
   `speakTextAsync` throwing inside the promise executor, which rejects the
   promise without running either callback.
   */
  datatype SynthesisOutcome =
    | SynthesisResult(reason: ResultReason, errorDetails: string)
    | CallbackError(error: string)
    | Thrown(error: string)

  datatype SpeechError = SynthesisFailed(errorDetails: string) | SynthesisError(error: string)

  /** How the promise `speak` returns settles. */
  datatype SpeakResult = Resolved | Rejected(error: SpeechError)

  /**
   JavaScript parameter defaults: a prop that is `undefined` takes its default
   (the environment for key and region); a defined prop, even `''`, is kept.
   */
  function ResolveProps(p: HookProps, env: SpeechEnv): (d: Deps)
    ensures p.subscriptionKey.Some? ==> d.subscriptionKey == p.subscriptionKey
    ensures p.subscriptionKey.None? ==> d.subscriptionKey == env.azureKey
    ensures p.region.Some? ==> d.region == p.region
    ensures p.region.None? ==> d.region == env.azureRegion
    ensures d.language == (if p.language.Some? then p.language.value else DefaultLanguage)
    ensures d.voice == (if p.voice.Some? then p.voice.value else DefaultVoice)
  {
    Deps(if p.subscriptionKey.Some? then p.subscriptionKey else env.azureKey,
         if p.region.Some? then p.region else env.azureRegion,
         if p.language.Some? then p.language.value else DefaultLanguage,
         if p.voice.Some? then p.voice.value else DefaultVoice)
  }

  /** The configuration the effect builds, or none when key or region is missing or empty. */
  function BuildConfig(d: Deps): (c: Option<SpeechConfig>)
    ensures c.Some? <==> Truthy(d.subscriptionKey) && Truthy(d.region)
    ensures c.Some? ==> c.value.subscriptionKey == d.subscriptionKey.value && c.value.region == d.region.value
    ensures c.Some? ==> c.value.language == d.language && c.value.voice == d.voice
  {
    if !Truthy(d.subscriptionKey) || !Truthy(d.region) then None
    else Some(SpeechConfig(d.subscriptionKey.value, d.region.value, d.language, d.voice))
  }

  /** How the callbacks of one synthesis call settle its promise. */
  function Settlement(o: SynthesisOutcome): (r: SpeakResult)
    ensures r == Resolved <==> o.SynthesisResult? && o.reason == SynthesizingAudioCompleted
    ensures r.Rejected? && o.SynthesisResult? ==> r.error == SynthesisFailed(o.errorDetails)
    ensures o.CallbackError? || o.Thrown? ==> r == Rejected(SynthesisError(o.error))
  {
    match o
    case SynthesisResult(reason, details) =>
      if reason == SynthesizingAudioCompleted then Resolved else Rejected(SynthesisFailed(details))
    case CallbackError(e) => Rejected(SynthesisError(e))
    case Thrown(e) => Rejected(SynthesisError(e))
  }

  /** With no key or region props, the environment's credentials and the default language and voice are used. */
  lemma DefaultsFromEnvironment(env: SpeechEnv)
    ensures var c := BuildConfig(ResolveProps(HookProps(None, None, None, None), env));
      && (c.Some? <==> Truthy(env.azureKey) && Truthy(env.azureRegion))
      && (c.Some? ==> c.value == SpeechConfig(env.azureKey.value, env.azureRegion.value, "zh-CN", "zh-CN-XiaoxiaoNeural"))
  {
  }

  /** A key prop of `''` is kept rather than defaulted, so synthesis is off whatever the environment holds. */
  lemma EmptyKeyPropDisables(p: HookProps, env: SpeechEnv)
    requires p.subscriptionKey == Some("")
    ensures BuildConfig(ResolveProps(p, env)).None?
  {
  }

  /** The handles below `created` that have not been closed. */
  function LiveHandles(created: nat, closed: set<nat>): set<nat> {
    set h | 0 <= h < created && h !in closed
  }

  /**
   Ownership of native instances: every built instance is closed except, at
   most, the one the last effect run registered for cleanup.
   */
  predicate OwnsAtMostOne(created: nat, closed: set<nat>, cleanup: Option<Synthesizer>) {
    && (cleanup.Some? ==> cleanup.value.handle < created && cleanup.value.handle !in closed)
    && (forall h :: h in closed ==> h < created)
    && (forall h :: 0 <= h < created && h !in closed ==> cleanup.Some? && h == cleanup.value.handle)
  }

  /** Under that ownership rule at most one instance is live, and it is the cleanup's. */
  lemma LiveHandlesAtMostOne(created: nat, closed: set<nat>, cleanup: Option<Synthesizer>)
    requires OwnsAtMostOne(created, closed, cleanup)
    ensures LiveHandles(created, closed) == (if cleanup.Some? then {cleanup.value.handle} else {})
    ensures |LiveHandles(created, closed)| <= 1
  {
  }

  class SpeechService {
    /** Dependencies of the last effect run; none before the first. */
    var deps: Option<Deps>
    /** The `synthesizer` state cell. */
    var synthesizer: Option<Synthesizer>
    /** The `speaking` state cell. */
    var speaking: bool
    /** The instance the last effect run's cleanup closes. */
    var cleanup: Option<Synthesizer>
    /** Number of instances built so far; their handles are 0 .. created - 1. */
    var created: nat
    /** Handles of the instances that have been closed. */
    var closed: set<nat>
    /** Every synthesis call made, in order. */
    var requests: seq<Request>
    /** Calls made whose callback has not fired yet. */
    ghost var inFlight: nat

    /** Native instances are owned by the hook and released as the effect reruns. */
    ghost predicate Valid()
      reads this
    {
      && OwnsAtMostOne(created, closed, cleanup)
      && (synthesizer.Some? ==> synthesizer.value.handle < created)
      && (cleanup.Some? ==> deps.Some? && BuildConfig(deps.value) == Some(cleanup.value.config))
      && (forall i :: 0 <= i < |requests| ==> requests[i].handle < created)
    }

    /** The synthesizer `speak` uses is the live instance of the current configuration. */
    ghost predicate SpeaksToLive()
      reads this
    {
      synthesizer == cleanup
    }

    /** Mount: both state cells start empty, then the effect runs for the first time. */
    constructor (p: HookProps, env: SpeechEnv)
      ensures Valid() && SpeaksToLive()
      ensures deps == Some(ResolveProps(p, env)) && !speaking && requests == [] && inFlight == 0
      ensures synthesizer == (match BuildConfig(ResolveProps(p, env))
                              case Some(c) => Some(Synthesizer(c, 0))
                              case None => None)
    {
      deps, synthesizer, speaking, cleanup := None, None, false, None;
      created, closed, requests, inFlight := 0, {}, [], 0;
      new;
      Render(p, env);
    }

    /**
     The corrected effect (the effect as the hook writes it is
     `RenderAsWritten`). A render resolves the props; when the dependencies
     changed, the previous run's instance is closed first, then an instance is
     built from exactly the new key, region, language and voice, or, without
     credentials, the hook is left with no synthesizer.
     */
    method Render(p: HookProps, env: SpeechEnv)
      requires Valid() && SpeaksToLive()
      modifies this
      ensures Valid() && SpeaksToLive()
      ensures var d := ResolveProps(p, env);
        && deps == Some(d)
        && (old(deps) == Some(d) ==> synthesizer == old(synthesizer) && created == old(created) && closed == old(closed))
        && (old(deps) != Some(d) ==>
          && closed == old(closed) + (if old(cleanup).Some? then {old(cleanup).value.handle} else {})
          && created == old(created) + (if BuildConfig(d).Some? then 1 else 0)
          && synthesizer == (if BuildConfig(d).Some? then Some(Synthesizer(BuildConfig(d).value, old(created))) else None))
      ensures speaking == old(speaking) && requests == old(requests) && inFlight == old(inFlight)
    {
      var d := ResolveProps(p, env);
      if deps == Some(d) {
        return;
      }
      if cleanup.Some? {
        closed := closed + {cleanup.value.handle};
      }
      deps := Some(d);
      var config := BuildConfig(d);
      if config.Some? {
        var built := Synthesizer(config.value, created);
        created := created + 1;
        synthesizer, cleanup := Some(built), Some(built);
      } else {
        synthesizer, cleanup := None, None;
      }
    }

    /**
     The effect as the hook writes it: without credentials it returns before
     touching the `synthesizer` cell, which keeps the instance just closed.
     */
    method RenderAsWritten(p: HookProps, env: SpeechEnv)
      requires Valid()
      modifies this
      ensures Valid()
      ensures var d := ResolveProps(p, env);
        && deps == Some(d)
        && (old(deps) == Some(d) ==> synthesizer == old(synthesizer) && created == old(created) && closed == old(closed))
        && (old(deps) != Some(d) ==>
          && closed == old(closed) + (if old(cleanup).Some? then {old(cleanup).value.handle} else {})
          && created == old(created) + (if BuildConfig(d).Some? then 1 else 0)
          && synthesizer == (if BuildConfig(d).Some? then Some(Synthesizer(BuildConfig(d).value, old(created))) else old(synthesizer)))
      ensures speaking == old(speaking) && requests == old(requests) && inFlight == old(inFlight)
    {
      var d := ResolveProps(p, env);
      if deps == Some(d) {
        return;
      }
      if cleanup.Some? {
        closed := closed + {cleanup.value.handle};
      }
      deps := Some(d);
      var config := BuildConfig(d);
      if config.Some? {
        var built := Synthesizer(config.value, created);
        created := created + 1;
        synthesizer, cleanup := Some(built), Some(built);
      } else {
        cleanup := None;
      }
    }

    /** Unmount: the last effect run's cleanup closes its instance. */
    method Unmount()
      requires Valid()
      modifies this`cleanup, this`closed
      ensures Valid() && cleanup.None?
      ensures LiveHandles(created, closed) == {}
      ensures closed == old(closed) + (if old(cleanup).Some? then {old(cleanup).value.handle} else {})
    {
      if cleanup.Some? {
        closed := closed + {cleanup.value.handle};
      }
      cleanup := None;
      LiveHandlesAtMostOne(created, closed, cleanup);
    }

    /**
     The synchronous part of `speak`: without a synthesizer it returns at once
     and changes nothing; otherwise it raises `speaking` and then issues the
     synthesis call.
     */
    method Speak(text: string) returns (issued: Option<Request>)
      requires Valid()
      modifies this`speaking, this`requests, this`inFlight
      ensures Valid()
      ensures synthesizer.None? ==>
        issued.None? && speaking == old(speaking) && requests == old(requests) && inFlight == old(inFlight)
      ensures synthesizer.Some? ==>
        && speaking
        && issued == Some(Request(synthesizer.value.handle, text))
        && requests == old(requests) + [issued.value]
        && inFlight == old(inFlight) + 1
      ensures SpeaksToLive() && issued.Some? ==> issued.value.handle in LiveHandles(created, closed)
    {
      if synthesizer.None? {
        return None;
      }
      speaking := true;
      issued := Issue(text);
      if SpeaksToLive() {
        LiveHandlesAtMostOne(created, closed, cleanup);
      }
    }

    /** `speakTextAsync`: only ever called once `speaking` is raised. */
    method Issue(text: string) returns (issued: Option<Request>)
      requires Valid() && speaking && synthesizer.Some?
      modifies this`requests, this`inFlight
      ensures Valid()
      ensures issued == Some(Request(synthesizer.value.handle, text))
      ensures requests == old(requests) + [issued.value] && inFlight == old(inFlight) + 1
    {
      var request := Request(synthesizer.value.handle, text);
      requests := requests + [request];
      inFlight := inFlight + 1;
      issued := Some(request);
    }

    /**
     The call ends: every callback path clears `speaking`; a throw from
     `speakTextAsync` rejects the promise with `speaking` left as it was.
     */
    method Settle(outcome: SynthesisOutcome) returns (r: SpeakResult)
      requires inFlight > 0
      modifies this`speaking, this`inFlight
      ensures speaking == (if outcome.Thrown? then old(speaking) else false)
      ensures inFlight == old(inFlight) - 1
      ensures r == Settlement(outcome)
    {
      match outcome {
        case SynthesisResult(reason, details) =>
          if reason == SynthesizingAudioCompleted {
            speaking := false;
            r := Resolved;
          } else {
            speaking := false;
            r := Rejected(SynthesisFailed(details));
          }
        case CallbackError(e) =>
          speaking := false;
          r := Rejected(SynthesisError(e));
        case Thrown(e) =>
          r := Rejected(SynthesisError(e));
      }
      inFlight := inFlight - 1;
    }
  }

  /**
   A whole `speak` call. Without a synthesizer the `async` function returns at
   once, so its promise resolves. Otherwise, whenever a callback answers,
   `speaking` ends false; only a throw from `speakTextAsync` leaves it true.
   */
  method SpeakToCompletion(s: SpeechService, text: string, outcome: SynthesisOutcome)
    returns (issued: Option<Request>, r: SpeakResult)
    requires s.Valid()
    modifies s
    ensures s.Valid()
    ensures issued.None? <==> old(s.synthesizer).None?
    ensures issued.None? ==> r == Resolved && s.speaking == old(s.speaking)
    ensures issued.Some? ==> r == Settlement(outcome) && (s.speaking <==> outcome.Thrown?) && s.inFlight == old(s.inFlight)
  {
    issued := s.Speak(text);
    if issued.None? {
      return issued, Resolved;
    }
    r := s.Settle(outcome);
  }

  /**
   Two overlapping calls: the first one settling clears `speaking` while the
   second is still in flight. The hook does not serialise calls.
   */
  method OverlappingCalls(key: string, region: string, env: SpeechEnv) returns (speaking: bool, issued: nat, settled: nat)
    requires key != "" && region != ""
    ensures issued == 2 && settled == 1 && !speaking
  {
    var s := new SpeechService(HookProps(Some(key), Some(region), None, None), env);
    var _ := s.Speak("a");
    var _ := s.Speak("b");
    var _ := s.Settle(SynthesisResult(SynthesizingAudioCompleted, ""));
    speaking, issued, settled := s.speaking, |s.requests|, 1;
  }

  /**
   As written: after the credentials are removed the `synthesizer` cell still
   holds the instance the cleanup closed, and `speak` issues a call to it.
   */
  method StaleSynthesizerWitness(key: string, region: string, env: SpeechEnv) returns (toClosedInstance: bool)
    requires key != "" && region != ""
    ensures toClosedInstance
  {
    var s := new SpeechService(HookProps(Some(key), Some(region), None, None), env);
    s.RenderAsWritten(HookProps(Some(""), Some(region), None, None), env);
    var issued := s.Speak("hello");
    toClosedInstance := issued.Some? && issued.value.handle in s.closed;
  }

  /** Corrected: after the credentials are removed `speak` is a no-op again. */
  method DisabledAfterCredentialsRemoved(key: string, region: string, env: SpeechEnv) returns (issued: Option<Request>, speaking: bool)
    requires key != "" && region != ""
    ensures issued.None? && !speaking
  {
    var s := new SpeechService(HookProps(Some(key), Some(region), None, None), env);
    s.Render(HookProps(Some(""), Some(region), None, None), env);
    issued := s.Speak("hello");
    speaking := s.speaking;
  }

}
