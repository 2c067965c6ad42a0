/**
 * The iOS plugin: a CoreHaptics engine created once at start-up, and the
 * method-call handler that turns each named call into a reply and at most
 * one request to the engine.
 */
module IosHaptics {
  import opened MethodChannel
  import opened Waveform

  /** An argument value as the handler's casts see it. */
  datatype ArgValue = Str(s: string) | Numbers(ns: seq<int>) | OtherValue

  /** A method call: its name, and its arguments when they form a string-keyed dictionary. */
  datatype MethodCall = MethodCall(name: string, arguments: Option<map<string, ArgValue>>)

  /** How CoreHaptics carried out a play request (building the pattern, the player, starting it). */
  datatype Playback = Played | PlaybackFailed(description: string)

  /**
   * What the handler learns from the platform during one call: the hardware
   * capability query, whether the asset path resolved to a bundle file, and
   * the outcome of a play request.
   */
  datatype Platform = Platform(supportsHaptics: bool, assetFound: bool, playback: Playback)

  /** A request submitted to the engine. */
  datatype Command =
    | PlayPattern(events: seq<HapticEvent>)   // CHHapticPattern + makePlayer + start(atTime: 0)
    | PlayAhapFile(path: string)              // playPattern(from:) on the resolved asset
    | StopEngine                              // stop(completionHandler: nil)

  /** The CoreHaptics engine object. */
  datatype Engine = CoreHapticsEngine

  const UnsupportedMessage := "Core Haptics not supported on this device."

  /** `args["key"]` after `call.arguments as? [String: Any]`: the entry under `key`, if any. */
  function Entry(arguments: Option<map<string, ArgValue>>, key: string): Option<ArgValue>
  {
    match arguments
    case Some(args) => if key in args then Some(args[key]) else None
    case None => None
  }

  /** `args["key"] as? String`. */
  function StringArg(arguments: Option<map<string, ArgValue>>, key: string): Option<string>
  {
    match Entry(arguments, key)
    case Some(Str(s)) => Some(s)
    case _ => None
  }

  /** `args["key"] as? [Double]`. */
  function NumbersArg(arguments: Option<map<string, ArgValue>>, key: string): Option<seq<int>>
  {
    match Entry(arguments, key)
    case Some(Numbers(ns)) => Some(ns)
    case _ => None
  }

  /** Submitting a play request: nil on success, PLAYBACK_ERROR with the native diagnostic otherwise. */
  function Play(command: Command, playback: Playback, failure: string): (Reply, Option<Command>)
  {
    match playback
    case Played => (Success(Nil), Some(command))
    case PlaybackFailed(description) => (Error("PLAYBACK_ERROR", failure, Some(description)), Some(command))
  }

  /** The handler's decision table, from the engine field, the call and the platform's answers. */
  function Dispatch(engine: Option<Engine>, call: MethodCall, platform: Platform): (Reply, Option<Command>)
  {
    if engine.None? then
      if call.name == "hasCustomHapticsSupport" then (Success(Bool(false)), None)
      else (Error("UNSUPPORTED", UnsupportedMessage, None), None)
    else if call.name == "hasCustomHapticsSupport" then
      (Success(Bool(platform.supportsHaptics)), None)
    else if call.name == "playAhap" then
      match StringArg(call.arguments, "path")
      case None => (Error("INVALID_ARGS", "Missing 'path' argument", None), None)
      case Some(path) =>
        if !platform.assetFound then (Error("FILE_NOT_FOUND", "AHAP file not found in assets", Some(path)), None)
        else Play(PlayAhapFile(path), platform.playback, "Failed to play AHAP pattern")
    else if call.name == "playWaveform" then
      match (NumbersArg(call.arguments, "timings"), NumbersArg(call.arguments, "amplitudes"))
      case (Some(timings), Some(amplitudes)) =>
        if !Covers(timings, amplitudes) then (Trap, None)
        else Play(PlayPattern(Emitted(timings, amplitudes, |timings|)), platform.playback, "Failed to play emulated waveform")
      case _ => (Error("INVALID_ARGS", "Invalid arguments for waveform", None), None)
    else if call.name == "success" then
      Play(PlayPattern(SuccessPattern), platform.playback, "Failed to play success pattern")
    else if call.name == "stop" then
      (Success(Nil), Some(StopEngine))
    else
      (Error("NOT_IMPLEMENTED", "Method not implemented", None), None)
  }

  /** The method names the handler knows. */
  predicate Known(name: string)
  {
    name in {"hasCustomHapticsSupport", "playAhap", "playWaveform", "success", "stop"}
  }

  class Plugin {
    var engine: Option<Engine>

    /**
     * `init` followed by `setupHapticEngine`. The three flags are the
     * hardware capability query and whether creating and starting the
     * engine succeeded. `engineStarted` is deliberately ignored: a failed
     * `start()` is only logged and leaves the engine in place.
     */
    constructor (supportsHaptics: bool, engineCreated: bool, engineStarted: bool)
      ensures engine.Some? <==> supportsHaptics && engineCreated
    {
      engine := None;
      new;
      SetupHapticEngine(supportsHaptics, engineCreated, engineStarted);
    }

    /**
     * Creates the engine only when the hardware supports haptics. The field
     * is assigned before `start()` is tried, so a failed start leaves it set;
     * `engineStarted` is therefore deliberately not read.
     */
    method SetupHapticEngine(supportsHaptics: bool, engineCreated: bool, engineStarted: bool)
      modifies this
      ensures engine == if supportsHaptics && engineCreated then Some(CoreHapticsEngine) else old(engine)
    {
      if !supportsHaptics {
        return;
      }
      if engineCreated {
        engine := Some(CoreHapticsEngine);
      }
    }

    /** `handle(_:result:)`: the reply and the engine request for one call. */
    method Handle(call: MethodCall, platform: Platform) returns (reply: Reply, command: Option<Command>)
      ensures (reply, command) == Dispatch(engine, call, platform)
    {
      if engine.None? {
        if call.name == "hasCustomHapticsSupport" {
          reply := Success(Bool(false));
        } else {
          reply := Error("UNSUPPORTED", UnsupportedMessage, None);
        }
        command := None;
        return;
      }
      command := None;
      if call.name == "hasCustomHapticsSupport" {
        reply := Success(Bool(platform.supportsHaptics));
      } else if call.name == "playAhap" {
        var path := StringArg(call.arguments, "path");
        if path.None? {
          reply := Error("INVALID_ARGS", "Missing 'path' argument", None);
        } else if !platform.assetFound {
          reply := Error("FILE_NOT_FOUND", "AHAP file not found in assets", Some(path.value));
        } else {
          var outcome := Play(PlayAhapFile(path.value), platform.playback, "Failed to play AHAP pattern");
          reply, command := outcome.0, outcome.1;
        }
      } else if call.name == "playWaveform" {
        var timings := NumbersArg(call.arguments, "timings");
        var amplitudes := NumbersArg(call.arguments, "amplitudes");
        if timings.None? || amplitudes.None? {
          reply := Error("INVALID_ARGS", "Invalid arguments for waveform", None);
        } else if !Covers(timings.value, amplitudes.value) {
          // amplitudes[i] is out of range at some odd i
          reply := Trap;
        } else {
          var events := CompileWaveform(timings.value, amplitudes.value);
          var outcome := Play(PlayPattern(events), platform.playback, "Failed to play emulated waveform");
          reply, command := outcome.0, outcome.1;
        }
      } else if call.name == "success" {
        var outcome := Play(PlayPattern(SuccessPattern), platform.playback, "Failed to play success pattern");
        reply, command := outcome.0, outcome.1;
      } else if call.name == "stop" {
        reply, command := Success(Nil), Some(StopEngine);
      } else {
        reply := Error("NOT_IMPLEMENTED", "Method not implemented", None);
      }
    }
  }

  /**
   * Without an engine no request is ever made: the capability query answers
   * false and every other method answers UNSUPPORTED.
   */
  lemma NoEngineGuard(call: MethodCall, platform: Platform)
    ensures var (reply, command) := Dispatch(None, call, platform);
      && command.None?
      && (reply == Success(Bool(false)) <==> call.name == "hasCustomHapticsSupport")
      && (call.name != "hasCustomHapticsSupport" <==> reply == Error("UNSUPPORTED", UnsupportedMessage, None))
  {
  }

  /**
   * An engine exists only on haptics-capable hardware, so while that
   * capability holds the query answers exactly whether the engine exists.
   */
  lemma SupportReflectsEngine(engine: Option<Engine>, call: MethodCall, platform: Platform)
    requires call.name == "hasCustomHapticsSupport"
    requires engine.Some? ==> platform.supportsHaptics
    ensures Dispatch(engine, call, platform) == (Success(Bool(engine.Some?)), None)
  {
  }

  /**
   * `playAhap` without a string `path` answers INVALID_ARGS, and a path that
   * does not resolve answers FILE_NOT_FOUND, both without a request; a
   * resolved path is requested and answers nil exactly when it plays.
   */
  lemma PlayAhapArguments(call: MethodCall, platform: Platform)
    requires call.name == "playAhap"
    ensures var (reply, command) := Dispatch(Some(CoreHapticsEngine), call, platform);
      && (StringArg(call.arguments, "path").None? ==> reply.Error? && reply.code == "INVALID_ARGS" && command.None?)
      && (StringArg(call.arguments, "path").Some? && !platform.assetFound ==>
            reply == Error("FILE_NOT_FOUND", "AHAP file not found in assets", StringArg(call.arguments, "path")) && command.None?)
      && (StringArg(call.arguments, "path").Some? && platform.assetFound ==>
            command == Some(PlayAhapFile(StringArg(call.arguments, "path").value)) &&
            (reply == Success(Nil) <==> platform.playback == Played))
  {
  }

  /** `playWaveform` with `timings` or `amplitudes` missing or not a number list answers INVALID_ARGS. */
  lemma PlayWaveformInvalidArguments(call: MethodCall, platform: Platform)
    requires call.name == "playWaveform"
    requires NumbersArg(call.arguments, "timings").None? || NumbersArg(call.arguments, "amplitudes").None?
    ensures Dispatch(Some(CoreHapticsEngine), call, platform)
         == (Error("INVALID_ARGS", "Invalid arguments for waveform", None), None)
  {
  }

  /** `playWaveform` whose amplitudes miss an odd index below the timings' length traps without a request. */
  lemma PlayWaveformShortAmplitudes(call: MethodCall, timings: seq<int>, amplitudes: seq<int>, platform: Platform)
    requires call.name == "playWaveform"
    requires Entry(call.arguments, "timings") == Some(Numbers(timings))
    requires Entry(call.arguments, "amplitudes") == Some(Numbers(amplitudes))
    requires !Covers(timings, amplitudes)
    ensures Dispatch(Some(CoreHapticsEngine), call, platform) == (Trap, None)
  {
  }

  /**
   * A well-formed `playWaveform` requests exactly one pattern: one event per
   * odd index, event k at the sum of the durations before index 2k+1, with
   * intensity amplitudes[2k+1]/255 and sharpness 0.8, offsets non-decreasing
   * when no duration is negative.
   */
  lemma PlayWaveformPattern(call: MethodCall, timings: seq<int>, amplitudes: seq<int>, platform: Platform)
    requires call.name == "playWaveform"
    requires Entry(call.arguments, "timings") == Some(Numbers(timings))
    requires Entry(call.arguments, "amplitudes") == Some(Numbers(amplitudes))
    requires Covers(timings, amplitudes)
    ensures var (reply, command) := Dispatch(Some(CoreHapticsEngine), call, platform);
      && command.Some? && command.value.PlayPattern?
      && var events := command.value.events;
      && |events| == |timings| / 2
      && (forall k :: 0 <= k < |events| ==>
            events[k] == Transient(Sum(timings[..2 * k + 1]), Intensity(amplitudes[2 * k + 1]), WaveformSharpness))
      && (NonNegative(timings) ==> forall p, q :: 0 <= p <= q < |events| ==> events[p].offsetMs <= events[q].offsetMs)
      && (reply == Success(Nil) <==> platform.playback == Played)
  {
    var events := Emitted(timings, amplitudes, |timings|);
    EmittedLength(timings, amplitudes, |timings|);
    forall k | 0 <= k < |events|
      ensures events[k] == Transient(Sum(timings[..2 * k + 1]), Intensity(amplitudes[2 * k + 1]), WaveformSharpness)
    {
      EmittedAt(timings, amplitudes, |timings|, k);
    }
    if NonNegative(timings) {
      EmittedOffsetsMonotone(timings, amplitudes, |timings|);
    }
  }

  /** `success` requests two transients, at 0 ms and 100 ms, each with intensity 1 and sharpness 0.5. */
  lemma SuccessCue(call: MethodCall, platform: Platform)
    requires call.name == "success"
    ensures var (reply, command) := Dispatch(Some(CoreHapticsEngine), call, platform);
      && command.Some? && command.value.PlayPattern?
      && var events := command.value.events;
      && |events| == 2 && events[0].offsetMs == 0 && events[1].offsetMs == 100
      && (forall e :: e in events ==> e.intensity == 1.0 && e.sharpness == 0.5)
      && (reply == Success(Nil) <==> platform.playback == Played)
  {
  }

  /** With an engine, `stop` always answers nil and requests a stop; an unknown method answers NOT_IMPLEMENTED. */
  lemma StopAndUnknown(call: MethodCall, platform: Platform)
    ensures call.name == "stop" ==> Dispatch(Some(CoreHapticsEngine), call, platform) == (Success(Nil), Some(StopEngine))
    ensures !Known(call.name) ==>
      Dispatch(Some(CoreHapticsEngine), call, platform) == (Error("NOT_IMPLEMENTED", "Method not implemented", None), None)
  {
  }

  /**
   * PLAYBACK_ERROR is answered exactly when a play request was made and the
   * platform reported its failure; the error carries the native diagnostic.
   */
  lemma PlaybackErrorIffFailedRequest(engine: Option<Engine>, call: MethodCall, platform: Platform)
    ensures var (reply, command) := Dispatch(engine, call, platform);
      (reply.Error? && reply.code == "PLAYBACK_ERROR")
        <==> (command.Some? && !command.value.StopEngine? && platform.playback.PlaybackFailed?)
  {
  }

  /** Every error the handler answers carries one of five codes, and only known methods make requests. */
  lemma ErrorCodes(engine: Option<Engine>, call: MethodCall, platform: Platform)
    ensures var (reply, command) := Dispatch(engine, call, platform);
      && (reply.Error? ==> reply.code in {"UNSUPPORTED", "INVALID_ARGS", "FILE_NOT_FOUND", "PLAYBACK_ERROR", "NOT_IMPLEMENTED"})
      && (command.Some? ==> engine.Some? && Known(call.name))
      && !reply.NotImplemented?
  {
  }

  /** `playAhap` reads no argument but `path`: two calls that agree on it are handled alike. */
  lemma PlayAhapReadsOnlyPath(engine: Option<Engine>, call: MethodCall, other: MethodCall, platform: Platform)
    requires call.name == "playAhap" && other.name == "playAhap"
    requires Entry(call.arguments, "path") == Entry(other.arguments, "path")
    ensures Dispatch(engine, call, platform) == Dispatch(engine, other, platform)
  {
  }

  /** `playWaveform` reads no argument but `timings` and `amplitudes`: two calls that agree on them are handled alike. */
  lemma PlayWaveformReadsOnlyLists(engine: Option<Engine>, call: MethodCall, other: MethodCall, platform: Platform)
    requires call.name == "playWaveform" && other.name == "playWaveform"
    requires Entry(call.arguments, "timings") == Entry(other.arguments, "timings")
    requires Entry(call.arguments, "amplitudes") == Entry(other.arguments, "amplitudes")
    ensures Dispatch(engine, call, platform) == Dispatch(engine, other, platform)
  {
  }

  /** Every other method ignores its arguments altogether. */
  lemma OtherMethodsIgnoreArguments(engine: Option<Engine>, call: MethodCall, platform: Platform)
    requires call.name != "playAhap" && call.name != "playWaveform"
    ensures Dispatch(engine, call, platform) == Dispatch(engine, MethodCall(call.name, None), platform)
  {
  }
}
