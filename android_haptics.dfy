/**
 * The Android plugin: a `Vibrator` service obtained when the plugin is
 * attached and dropped when it is detached, and the method-call handler
 * that gates each call on the SDK level and issues at most one command to
 * the vibrator.
 */
module AndroidHaptics {
  import opened MethodChannel

  /** `Build.VERSION_CODES.O`: the first SDK level with `VibrationEffect`. */
  const VersionCodeO := 26

  /** The `repeat` argument that plays a waveform once. */
  const NoRepeat := -1

  /** The system vibrator; `hasAmplitudeControl` is its answer to the capability query. */
  datatype Vibrator = Vibrator(hasAmplitudeControl: bool)

  /**
   * A method call: its name and the values `call.argument` yields for
   * `timings` and `amplitudes` (`None` when the argument is null or absent).
   */
  datatype MethodCall = MethodCall(name: string, timings: Option<seq<int>>, amplitudes: Option<seq<int>>)

  /** A command issued to the vibrator. */
  datatype Command =
    | VibrateWaveform(timings: seq<int>, amplitudes: seq<int>, repeat: int)  // vibrate(createWaveform(t, a, repeat))
    | VibrateMillis(duration: int)                                          // vibrate(ms), before API 26
    | VibratePattern(pattern: seq<int>, repeat: int)                        // vibrate(pattern, repeat), before API 26
    | Cancel                                                                // cancel()

  /**
   * What `VibrationEffect.createWaveform` does with the arrays of a
   * `playWaveform` call: it accepts them, or it throws an
   * `IllegalArgumentException` with the given message.
   */
  datatype EffectCheck = Accepted | Rejected(message: string)

  /**
   * The reply to an exception that escapes `onMethodCall`: the channel
   * framework answers an error with code "error" and the exception's message.
   */
  function Uncaught(message: string): Reply
  {
    Error("error", message, None)
  }

  /** `vibrator?.…`: the command is issued only when a vibrator is present. */
  function Issue(vibrator: Option<Vibrator>, command: Command): Option<Command>
  {
    if vibrator.Some? then Some(command) else None
  }

  /**
   * `onMethodCall`'s decision table, from the SDK level, the vibrator field,
   * the call, and what `createWaveform` makes of the call's own arrays. The
   * effect is built before `vibrator?.vibrate`, so a rejection stops the
   * call whether or not a vibrator is present.
   */
  function Dispatch(sdkInt: int, vibrator: Option<Vibrator>, call: MethodCall, waveformCheck: EffectCheck): (Reply, Option<Command>)
  {
    if call.name == "hasCustomHapticsSupport" then
      if sdkInt >= VersionCodeO then
        (Success(Bool(vibrator.Some? && vibrator.value.hasAmplitudeControl)), None)
      else
        (Success(Bool(false)), None)
    else if call.name == "playWaveform" then
      if sdkInt >= VersionCodeO then
        if call.timings.Some? && call.amplitudes.Some? then
          match waveformCheck
          case Rejected(message) => (Uncaught(message), None)
          case Accepted => (Success(Nil), Issue(vibrator, VibrateWaveform(call.timings.value, call.amplitudes.value, NoRepeat)))
        else
          (Error("INVALID_ARGS", "Timings or amplitudes are null", None), None)
      else
        (Error("UNSUPPORTED_API", "Waveform vibrations require Android API 26+", None), None)
    else if call.name == "playAhap" then
      if sdkInt >= VersionCodeO then
        (Success(Nil), Issue(vibrator, VibrateWaveform([0, 100, 50, 100], [0, 255, 0, 150], NoRepeat)))
      else
        (Success(Nil), Issue(vibrator, VibrateMillis(200)))
    else if call.name == "success" then
      if sdkInt >= VersionCodeO then
        (Success(Nil), Issue(vibrator, VibrateWaveform([0, 50, 100, 50], [0, 150, 0, 150], NoRepeat)))
      else
        (Success(Nil), Issue(vibrator, VibratePattern([0, 50, 100, 50], NoRepeat)))
    else if call.name == "stop" then
      (Success(Nil), Issue(vibrator, Cancel))
    else
      (NotImplemented, None)
  }

  class Plugin {
    var vibrator: Option<Vibrator>

    /** The plugin starts with no vibrator. */
    constructor ()
      ensures vibrator == None
    {
      vibrator := None;
    }

    /** `onAttachedToEngine`: stores the system vibrator service (`None` when the device has none). */
    method OnAttachedToEngine(service: Option<Vibrator>)
      modifies this
      ensures vibrator == service
    {
      vibrator := service;
    }

    /** `onDetachedFromEngine`: drops the vibrator. */
    method OnDetachedFromEngine()
      modifies this
      ensures vibrator == None
    {
      vibrator := None;
    }
  }

  /**
   * The capability query never fails and answers true exactly when the SDK
   * level is at least 26 and a vibrator with amplitude control is present.
   */
  lemma CustomHapticsSupport(sdkInt: int, vibrator: Option<Vibrator>, call: MethodCall, waveformCheck: EffectCheck)
    requires call.name == "hasCustomHapticsSupport"
    ensures var (reply, command) := Dispatch(sdkInt, vibrator, call, waveformCheck);
      && command.None? && reply.Success? && reply.value.Bool?
      && (reply.value.b <==> sdkInt >= VersionCodeO && vibrator.Some? && vibrator.value.hasAmplitudeControl)
  {
  }

  /**
   * `playWaveform`: below API 26 it answers UNSUPPORTED_API, with a null
   * array INVALID_ARGS, and with arrays `createWaveform` rejects the
   * uncaught exception's error, all without vibrating; otherwise it plays
   * the given timings and amplitudes once and answers success.
   */
  lemma PlayWaveformGate(sdkInt: int, vibrator: Option<Vibrator>, call: MethodCall, waveformCheck: EffectCheck)
    requires call.name == "playWaveform"
    ensures var (reply, command) := Dispatch(sdkInt, vibrator, call, waveformCheck);
      && (sdkInt < VersionCodeO ==> reply.Error? && reply.code == "UNSUPPORTED_API" && command.None?)
      && (sdkInt >= VersionCodeO && (call.timings.None? || call.amplitudes.None?) ==>
            reply.Error? && reply.code == "INVALID_ARGS" && command.None?)
      && (sdkInt >= VersionCodeO && call.timings.Some? && call.amplitudes.Some? && waveformCheck.Rejected? ==>
            reply == Error("error", waveformCheck.message, None) && command.None?)
      && (sdkInt >= VersionCodeO && call.timings.Some? && call.amplitudes.Some? && waveformCheck == Accepted ==>
            reply == Success(Nil) &&
            (command.Some? <==> vibrator.Some?) &&
            (command.Some? ==> command.value == VibrateWaveform(call.timings.value, call.amplitudes.value, -1)))
  {
  }

  /** `playAhap` always succeeds: a fixed two-pulse waveform from API 26, a single 200 ms pulse before. */
  lemma PlayAhapFallback(sdkInt: int, vibrator: Option<Vibrator>, call: MethodCall, waveformCheck: EffectCheck)
    requires call.name == "playAhap"
    ensures Dispatch(sdkInt, vibrator, call, waveformCheck).0 == Success(Nil)
    ensures Dispatch(sdkInt, vibrator, call, waveformCheck).1
         == Issue(vibrator, if sdkInt >= 26 then VibrateWaveform([0, 100, 50, 100], [0, 255, 0, 150], -1) else VibrateMillis(200))
  {
  }

  /** `success` always succeeds: the waveform 0/50/100/50 ms from API 26, the same timings as a plain pattern before. */
  lemma SuccessFallback(sdkInt: int, vibrator: Option<Vibrator>, call: MethodCall, waveformCheck: EffectCheck)
    requires call.name == "success"
    ensures Dispatch(sdkInt, vibrator, call, waveformCheck).0 == Success(Nil)
    ensures Dispatch(sdkInt, vibrator, call, waveformCheck).1
         == Issue(vibrator, if sdkInt >= 26 then VibrateWaveform([0, 50, 100, 50], [0, 150, 0, 150], -1) else VibratePattern([0, 50, 100, 50], -1))
  {
  }

  /** `stop` always succeeds and cancels; an unknown method is reported as not implemented. */
  lemma StopAndUnknown(sdkInt: int, vibrator: Option<Vibrator>, call: MethodCall, waveformCheck: EffectCheck)
    ensures call.name == "stop" ==> Dispatch(sdkInt, vibrator, call, waveformCheck) == (Success(Nil), Issue(vibrator, Cancel))
    ensures (Dispatch(sdkInt, vibrator, call, waveformCheck).0 == NotImplemented)
        <==> call.name !in {"hasCustomHapticsSupport", "playWaveform", "playAhap", "success", "stop"}
  {
  }

  /**
   * When the vibrator field is null (the system has no vibrator service,
   * or the handler runs after `onDetachedFromEngine`) no command is ever
   * issued, yet `playAhap`, `success`, `stop` and a well-formed, accepted
   * `playWaveform` from API 26 still answer success.
   */
  lemma DetachedStillSucceeds(sdkInt: int, call: MethodCall, waveformCheck: EffectCheck)
    ensures Dispatch(sdkInt, None, call, waveformCheck).1 == None
    ensures call.name in {"playAhap", "success", "stop"} ==> Dispatch(sdkInt, None, call, waveformCheck).0 == Success(Nil)
    ensures call.name == "playWaveform" && sdkInt >= 26 && call.timings.Some? && call.amplitudes.Some? && waveformCheck == Accepted ==>
      Dispatch(sdkInt, None, call, waveformCheck).0 == Success(Nil)
  {
  }

  /** Only `playWaveform` ever answers an error, and an error never comes with a command. */
  lemma ErrorsOnlyFromWaveform(sdkInt: int, vibrator: Option<Vibrator>, call: MethodCall, waveformCheck: EffectCheck)
    ensures var (reply, command) := Dispatch(sdkInt, vibrator, call, waveformCheck);
      reply.Error? ==> call.name == "playWaveform" && command.None? && reply.code in {"INVALID_ARGS", "UNSUPPORTED_API", "error"}
  {
  }

  /**
   * The handler run after detaching, whatever vibrator the plugin held
   * before, issues no command. (Over the channel no call arrives then, since
   * detaching also clears the method-call handler.)
   */
  method CallAfterDetach(plugin: Plugin, sdkInt: int, call: MethodCall, waveformCheck: EffectCheck) returns (reply: Reply, command: Option<Command>)
    modifies plugin
    ensures plugin.vibrator == None
    ensures command == None
    ensures (reply, command) == Dispatch(sdkInt, None, call, waveformCheck)
  {
    plugin.OnDetachedFromEngine();
    var outcome := Dispatch(sdkInt, plugin.vibrator, call, waveformCheck);
    reply, command := outcome.0, outcome.1;
    DetachedStillSucceeds(sdkInt, call, waveformCheck);
  }
}
