/** Values the F-Log client works with: captured records, their enriched form,
    the client configuration and one call to the transport. */
module FLogTypes {

  /** Stands in for a value that may be missing (`undefined` or `null`). */
  datatype Option<+T> = None | Some(value: T) {
    function GetOr(default: T): T {
      match this
      case Some(v) => v
      case None => default
    }
  }

  /** Outcome of `init`: it either returns normally or throws. */
  datatype Outcome = Pass | Fail(message: string)

  const EndpointRequired: string := "FLog: Endpoint is required to send logs"

  /** The fixed cookie key under which the session identifier is persisted. */
  const SessionCookie: string := "flog_session_id"

  datatype Level = Info | Warn | Error | Debug

  /** A JSON-like value: stands in for `unknown` property values and user fields. */
  datatype Value = Null | Bool(b: bool) | Num(n: int) | Str(s: string)

  type Properties = map<string, Value>
  type User = map<string, Value>

  /** A captured record, immutable once created. */
  datatype Log = Log(level: Level, message: string, timestamp: int, args: Option<seq<Value>>)

  /** The context a record is enriched with when it is flushed. */
  datatype Context = Context(
    properties: Properties,
    user: Option<User>,
    sessionId: Option<string>,
    tabId: Option<string>)

  /** A record spread together with the context fields (`{ ...log, properties, user, ... }`). */
  datatype EnrichedLog = EnrichedLog(
    level: Level,
    message: string,
    timestamp: int,
    args: Option<seq<Value>>,
    properties: Properties,
    user: Option<User>,
    sessionId: Option<string>,
    tabId: Option<string>)

  /** What a caller passes to `init`; either field may be missing. */
  datatype ClientConfig = ClientConfig(endpoint: Option<string>, interceptNativeConsoleLogs: Option<bool>)

  /** What the client stores: `{ endpoint: "" }` before `init` and after `destroy`. */
  datatype Config = Config(endpoint: string, interceptNativeConsoleLogs: Option<bool>)

  const EmptyConfig: Config := Config("", None)

  /** One call to the transport: the endpoint and the ordered batch handed to it. */
  datatype Batch = Batch(endpoint: string, logs: seq<EnrichedLog>)

  /** The entry points of the `Logger` object. */
  datatype LoggerFn = LogFn | InfoFn | ErrorFn | WarnFn | DebugFn
}
