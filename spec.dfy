/** The F-Log client as a state machine on values: one function per public or
    private operation of the `FLog` class, each mapping the state before the
    call to the state after it. The imperative class in FLogClient is proved
    against these functions. */
module FLogSpec {
  import opened FLogTypes

  /** Everything the client's behaviour depends on or produces.
      `cookies` is the browser's cookie jar, `sent` the calls made to the
      transport, and the last three fields record the host hooks installed:
      the flush interval, the page-unload listener and how many times the
      console has been intercepted. */
  datatype State = State(
    initialized: bool,
    config: Config,
    logs: seq<Log>,
    userInfo: Option<User>,
    properties: Properties,
    sessionId: Option<string>,
    tabId: Option<string>,
    cookies: map<string, string>,
    sent: seq<Batch>,
    timerArmed: bool,
    unloadHooked: bool,
    consoleInstalls: nat)

  /** The state after a call to `init`, and whether it returned or threw. */
  datatype Transition = Transition(next: State, outcome: Outcome)

  /** A newly constructed client on a page whose cookie jar holds `cookies`. */
  function Initial(cookies: map<string, string>): State {
    State(false, EmptyConfig, [], None, map[], None, None, cookies, [], false, false, 0)
  }

  /** What holds of every state a client can reach: a queue only while
      initialised, an initialised client always has an endpoint and its host
      hooks, and no call to the transport ever carried an empty batch or went
      to an empty endpoint. */
  ghost predicate Consistent(s: State) {
    && (!s.initialized ==> s.logs == [] && !s.timerArmed)
    && (s.initialized ==>
          s.config.endpoint != "" && s.timerArmed && s.unloadHooked
          && s.consoleInstalls > 0 && s.tabId.Some?)
    && forall b :: b in s.sent ==> b.endpoint != "" && b.logs != []
  }

  lemma InitialConsistent(cookies: map<string, string>)
    ensures Consistent(Initial(cookies))
  {
  }

  // ---------------------------------------------------------------- enrichment

  /** The context attached to every record flushed from state `s`. The user
      is copied: on values a shallow copy is the value itself. */
  function ContextOf(s: State): Context {
    Context(s.properties, s.userInfo, s.sessionId, s.tabId)
  }

  /** The captured record an enriched record was built from. */
  function Base(e: EnrichedLog): Log {
    Log(e.level, e.message, e.timestamp, e.args)
  }

  /** The context an enriched record carries. */
  function Enrichment(e: EnrichedLog): Context {
    Context(e.properties, e.user, e.sessionId, e.tabId)
  }

  /** `processLog`: the record's own fields followed by the current context. */
  function Enrich(log: Log, ctx: Context): (e: EnrichedLog)
    ensures Base(e) == log && Enrichment(e) == ctx
  {
    EnrichedLog(log.level, log.message, log.timestamp, log.args,
                ctx.properties, ctx.user, ctx.sessionId, ctx.tabId)
  }

  /** `logs.map(processLog)`: same length, same order, every record enriched
      with the same context. */
  function EnrichAll(logs: seq<Log>, ctx: Context): (r: seq<EnrichedLog>)
    ensures |r| == |logs|
    ensures forall i :: 0 <= i < |logs| ==> Base(r[i]) == logs[i] && Enrichment(r[i]) == ctx
  {
    if logs == [] then [] else [Enrich(logs[0], ctx)] + EnrichAll(logs[1..], ctx)
  }

  /** The captured records behind a batch, in order. */
  function Bases(es: seq<EnrichedLog>): seq<Log> {
    if es == [] then [] else [Base(es[0])] + Bases(es[1..])
  }

  /** The captured records behind every batch sent so far, in sending order. */
  function AllBases(batches: seq<Batch>): seq<Log> {
    if batches == [] then []
    else AllBases(batches[..|batches| - 1]) + Bases(batches[|batches| - 1].logs)
  }

  /** Stripping the enrichment from a batch gives back the queue it was built from. */
  lemma {:induction false} BasesOfEnrichAll(logs: seq<Log>, ctx: Context)
    ensures Bases(EnrichAll(logs, ctx)) == logs
  {
    if logs != [] {
      var r := EnrichAll(logs, ctx);
      assert r[1..] == EnrichAll(logs[1..], ctx);
      BasesOfEnrichAll(logs[1..], ctx);
      assert logs == [logs[0]] + logs[1..];
    }
  }

  // ------------------------------------------------------------------ session

  /** JavaScript truthiness of the cookie read: absent and "" both count as unset. */
  predicate SessionCookieSet(cookies: map<string, string>) {
    SessionCookie in cookies && cookies[SessionCookie] != ""
  }

  /** `setSessionId`, as written: only when the cookie is unset is a fresh id
      stored and assigned to the client; when it is set, neither the jar nor
      the client's `sessionId` changes. Result: (cookie jar, sessionId). */
  function ResolveSession(cookies: map<string, string>, sessionId: Option<string>, freshId: string)
    : (r: (map<string, string>, Option<string>))
    ensures SessionCookieSet(cookies) ==> r.0 == cookies && r.1 == sessionId
    ensures !SessionCookieSet(cookies) ==>
              SessionCookie in r.0 && r.1 == Some(r.0[SessionCookie]) && r.1 == Some(freshId)
    ensures forall k :: k != SessionCookie ==> (k in r.0 <==> k in cookies)
    ensures forall k :: k != SessionCookie && k in cookies ==> r.0[k] == cookies[k]
    ensures freshId != "" ==> SessionCookieSet(r.0)
  {
    if SessionCookieSet(cookies) then (cookies, sessionId)
    else (cookies[SessionCookie := freshId], Some(freshId))
  }

  // -------------------------------------------------------------------- init

  /** `init`'s default parameter: a missing config is `{ endpoint: "" }`. */
  function EffectiveOptions(options: Option<ClientConfig>): ClientConfig {
    options.GetOr(ClientConfig(Some(""), None))
  }

  /** `!endpoint`: a missing or empty endpoint. */
  predicate EndpointMissing(c: ClientConfig) {
    c.endpoint.None? || c.endpoint.value == ""
  }

  /** `init(config)`. A second call while initialised does nothing; a missing
      endpoint throws before any field is touched; otherwise the client is
      configured, initialised, given the fresh tab id, its session resolved and
      its interval, unload listener and console interception installed (the
      latter whatever `interceptNativeConsoleLogs` says). */
  function Init(s: State, options: Option<ClientConfig>, freshTabId: string, freshSessionId: string)
    : (t: Transition)
    ensures s.initialized ==> t == Transition(s, Pass)
    ensures !s.initialized && EndpointMissing(EffectiveOptions(options)) ==>
              t == Transition(s, Fail(EndpointRequired))
    ensures !s.initialized && !EndpointMissing(EffectiveOptions(options)) ==>
              var c := EffectiveOptions(options);
              && t.outcome == Pass
              && t.next.initialized
              && Some(t.next.config.endpoint) == c.endpoint
              && t.next.config.interceptNativeConsoleLogs ==
                   (if c.interceptNativeConsoleLogs.None? then Some(true) else c.interceptNativeConsoleLogs)
              && t.next.tabId == Some(freshTabId)
              && (t.next.cookies, t.next.sessionId) == ResolveSession(s.cookies, s.sessionId, freshSessionId)
              && t.next.timerArmed && t.next.unloadHooked
              && t.next.consoleInstalls == s.consoleInstalls + 1
              && t.next.logs == s.logs && t.next.sent == s.sent
              && t.next.userInfo == s.userInfo && t.next.properties == s.properties
    ensures Consistent(s) ==> Consistent(t.next)
  {
    if s.initialized then Transition(s, Pass)
    else
      var c := EffectiveOptions(options);
      if EndpointMissing(c) then Transition(s, Fail(EndpointRequired))
      else
        var session := ResolveSession(s.cookies, s.sessionId, freshSessionId);
        var next := s.(
          config := Config(c.endpoint.value, Some(c.interceptNativeConsoleLogs.GetOr(true))),
          initialized := true,
          tabId := Some(freshTabId),
          cookies := session.0,
          sessionId := session.1,
          timerArmed := true,
          unloadHooked := true,
          consoleInstalls := s.consoleInstalls + 1);
        Transition(next, Pass)
  }

  // ---------------------------------------------------------- context setters

  /** `setUser`: replaces the user, initialised or not. */
  function SetUser(s: State, user: Option<User>): (r: State)
    ensures r.userInfo == user
    ensures r.(userInfo := s.userInfo) == s
    ensures Consistent(s) ==> Consistent(r)
  {
    s.(userInfo := user)
  }

  /** `setProperty`: an upsert; the named key now maps to the value and every
      other key keeps what it had. */
  function SetProperty(s: State, name: string, value: Value): (r: State)
    ensures name in r.properties && r.properties[name] == value
    ensures forall k :: k != name ==> (k in r.properties <==> k in s.properties)
    ensures forall k :: k != name && k in s.properties ==> r.properties[k] == s.properties[k]
    ensures r.(properties := s.properties) == s
    ensures Consistent(s) ==> Consistent(r)
  {
    s.(properties := s.properties[name := value])
  }

  // ----------------------------------------------------------- queue and flush

  /** `pushLogToQueue`: appends the record while initialised, drops it otherwise. */
  function Push(s: State, log: Log): (r: State)
    ensures s.initialized ==>
              |r.logs| == |s.logs| + 1 && r.logs[..|s.logs|] == s.logs && r.logs[|s.logs|] == log
    ensures !s.initialized ==> r == s
    ensures r.(logs := s.logs) == s
    ensures Consistent(s) ==> Consistent(r)
  {
    if !s.initialized then s else s.(logs := s.logs + [log])
  }

  /** `sendLogs`: a non-empty queue goes to the transport as one batch,
      enriched with the context as it is now; an empty one sends nothing;
      either way the queue is empty afterwards. */
  function Flush(s: State): (r: State)
    ensures r.logs == []
    ensures s.logs == [] ==> r.sent == s.sent
    ensures s.logs != [] ==>
              && |r.sent| == |s.sent| + 1
              && r.sent[..|s.sent|] == s.sent
              && r.sent[|s.sent|].endpoint == s.config.endpoint
              && |r.sent[|s.sent|].logs| == |s.logs|
              && forall i :: 0 <= i < |s.logs| ==> r.sent[|s.sent|].logs[i] == Enrich(s.logs[i], ContextOf(s))
    ensures AllBases(r.sent) == AllBases(s.sent) + s.logs
    ensures r.(logs := s.logs, sent := s.sent) == s
    ensures Consistent(s) ==> Consistent(r)
  {
    if s.logs == [] then s.(logs := [])
    else
      var batch := Batch(s.config.endpoint, EnrichAll(s.logs, ContextOf(s)));
      var sent := s.sent + [batch];
      assert sent[..|sent| - 1] == s.sent;
      BasesOfEnrichAll(s.logs, ContextOf(s));
      s.(logs := [], sent := sent)
  }

  /** `destroy`: flushes, then clears the queue, user and properties, stops the
      interval, leaves the initialised state and resets the config. Session
      id, tab id, cookie jar, unload listener and console interception stay. */
  function Destroy(s: State): (r: State)
    ensures r.sent == Flush(s).sent
    ensures !r.initialized && r.config == EmptyConfig
    ensures r.logs == [] && r.userInfo == None && r.properties == map[] && !r.timerArmed
    ensures r.sessionId == s.sessionId && r.tabId == s.tabId && r.cookies == s.cookies
    ensures r.unloadHooked == s.unloadHooked && r.consoleInstalls == s.consoleInstalls
    ensures Flush(r) == r
    ensures forall log :: Push(r, log) == r
    ensures Consistent(s) ==> Consistent(r)
  {
    var f := Flush(s);
    f.(logs := [], userInfo := None, properties := map[], timerArmed := false,
       initialized := false, config := EmptyConfig)
  }

  // ------------------------------------------------------------ manual logger

  /** The level each `Logger` entry point records; `log` is an alias of `info`. */
  function LevelOf(fn: LoggerFn): Level {
    match fn
    case LogFn => Info
    case InfoFn => Info
    case ErrorFn => Error
    case WarnFn => Warn
    case DebugFn => Debug
  }
}
