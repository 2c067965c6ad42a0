/**
 * Values exchanged with the host application over the Flutter method
 * channel: what a platform handler replies to one method call.
 */
module MethodChannel {

  /** Swift's and Kotlin's nullable values. */
  datatype Option<+T> = None | Some(value: T)

  /** The payload of a successful reply: `nil`/`null`, or a boolean. */
  datatype Value = Nil | Bool(b: bool)

  /**
   * What the handler answers. `Error` is a FlutterError (iOS) or
   * `result.error` (Android); `NotImplemented` is Android's
   * `result.notImplemented()`; `Trap` is a Swift runtime trap (an array
   * index out of range), after which no reply is sent at all.
   */
  datatype Reply =
    | Success(value: Value)
    | Error(code: string, message: string, details: Option<string>)
    | NotImplemented
    | Trap
}
