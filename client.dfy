/** The `FLog` client object: the fields its methods update in place, and one
    method per method of the class. The constructor and the methods a page
    calls (`Init`, `SetUser`, `SetProperty`, `SendLogs`, `PushLogToQueue`,
    `Destroy`, `CallLogger`) are proved to take the client from state `s` to
    the state the matching FLogSpec function gives for `s`, and to keep
    FLogSpec.Consistent. The helpers `Init` calls part-way through
    (`SetTabId`, `SetSessionId`, `SetSendLogsInterval`, `MountUnloadListener`,
    `InterceptNativeConsoleLogs`) run while the invariant is briefly broken:
    each states the fields it sets, and its `modifies` clause frames the rest. */
module FLogClient {
  import opened FLogTypes
  import FLogSpec

  class FLog {
    var initialized: bool
    var config: Config
    var logs: seq<Log>
    var userInfo: Option<User>
    var properties: Properties
    var sessionId: Option<string>
    var tabId: Option<string>

    /** The browser's cookie jar, as far as the client reads and writes it. */
    var cookies: map<string, string>

    /** Every call made to the transport so far, in order. */
    ghost var sent: seq<Batch>
    /** Whether the periodic flush interval is running. */
    ghost var timerArmed: bool
    /** Whether `window.onbeforeunload` flushes the queue. */
    ghost var unloadHooked: bool
    /** How many times the console has been intercepted. */
    ghost var consoleInstalls: nat

    /** The client's whole state as a value. */
    ghost function Snapshot(): FLogSpec.State
      reads this
    {
      FLogSpec.State(initialized, config, logs, userInfo, properties, sessionId, tabId,
                     cookies, sent, timerArmed, unloadHooked, consoleInstalls)
    }

    ghost predicate Valid()
      reads this
    {
      FLogSpec.Consistent(Snapshot())
    }

    /** A new client on a page whose cookie jar holds `cookies`. */
    constructor (cookies: map<string, string>)
      ensures Valid() && Snapshot() == FLogSpec.Initial(cookies)
    {
      initialized := false;
      config := EmptyConfig;
      logs := [];
      userInfo := None;
      properties := map[];
      sessionId := None;
      tabId := None;
      this.cookies := cookies;
      sent := [];
      timerArmed := false;
      unloadHooked := false;
      consoleInstalls := 0;
      new;
      FLogSpec.InitialConsistent(cookies);
    }

    /** `init`; `freshTabId` and `freshSessionId` are the values `uuid()` returns. */
    method Init(options: Option<ClientConfig>, freshTabId: string, freshSessionId: string)
      returns (outcome: Outcome)
      requires Valid()
      modifies this
      ensures Valid()
      ensures Snapshot() == FLogSpec.Init(old(Snapshot()), options, freshTabId, freshSessionId).next
      ensures outcome == FLogSpec.Init(old(Snapshot()), options, freshTabId, freshSessionId).outcome
    {
      ghost var t := FLogSpec.Init(Snapshot(), options, freshTabId, freshSessionId);
      if initialized {
        return Pass;
      }
      var c := options.GetOr(ClientConfig(Some(""), None));
      var intercept := c.interceptNativeConsoleLogs.GetOr(true);
      if c.endpoint.None? || c.endpoint.value == "" {
        return Fail(EndpointRequired);
      }
      assert t.next.config == Config(c.endpoint.value, Some(intercept));
      config := Config(c.endpoint.value, Some(intercept));
      initialized := true;
      SetTabId(freshTabId);
      SetSessionId(freshSessionId);
      SetSendLogsInterval();
      MountUnloadListener();
      InterceptNativeConsoleLogs();
      outcome := Pass;
      assert Snapshot() == t.next;
    }

    method SetUser(user: Option<User>)
      requires Valid()
      modifies this`userInfo
      ensures Valid()
      ensures Snapshot() == FLogSpec.SetUser(old(Snapshot()), user)
    {
      userInfo := user;
    }

    method SetProperty(name: string, value: Value)
      requires Valid()
      modifies this`properties
      ensures Valid()
      ensures Snapshot() == FLogSpec.SetProperty(old(Snapshot()), name, value)
    {
      properties := properties[name := value];
    }

    /** `setTabId`: the tab id is always the freshly generated one. */
    method SetTabId(freshId: string)
      modifies this`tabId
      ensures tabId == Some(freshId)
    {
      tabId := Some(freshId);
    }

    /** `setSessionId`: read the cookie, create it only if it is unset. */
    method SetSessionId(freshId: string)
      modifies this`cookies, this`sessionId
      ensures (cookies, sessionId) == FLogSpec.ResolveSession(old(cookies), old(sessionId), freshId)
    {
      var current := if SessionCookie in cookies then Some(cookies[SessionCookie]) else None;
      if current.None? || current.value == "" {
        cookies := cookies[SessionCookie := freshId];
        sessionId := Some(freshId);
      }
    }

    /** `sendLogs`: one batch for a non-empty queue, then an empty queue. */
    method SendLogs()
      requires Valid()
      modifies this`logs, this`sent
      ensures Valid()
      ensures Snapshot() == FLogSpec.Flush(old(Snapshot()))
    {
      if |logs| > 0 {
        sent := sent + [Batch(config.endpoint, FLogSpec.EnrichAll(logs, Context(properties, userInfo, sessionId, tabId)))];
      }
      logs := [];
    }

    method SetSendLogsInterval()
      modifies this`timerArmed
      ensures timerArmed
    {
      timerArmed := true;
    }

    method MountUnloadListener()
      modifies this`unloadHooked
      ensures unloadHooked
    {
      unloadHooked := true;
    }

    method InterceptNativeConsoleLogs()
      modifies this`consoleInstalls
      ensures consoleInstalls == old(consoleInstalls) + 1
    {
      consoleInstalls := consoleInstalls + 1;
    }

    /** `pushLogToQueue`: the single capture path of intercepted console calls
        and of the manual logger. */
    method PushLogToQueue(log: Log)
      requires Valid()
      modifies this`logs
      ensures Valid()
      ensures Snapshot() == FLogSpec.Push(old(Snapshot()), log)
    {
      if !initialized {
        return;
      }
      logs := logs + [log];
    }

    method Destroy()
      requires Valid()
      modifies this
      ensures Valid()
      ensures Snapshot() == FLogSpec.Destroy(old(Snapshot()))
    {
      SendLogs();
      logs := [];
      userInfo := None;
      properties := map[];
      timerArmed := false;
      initialized := false;
      config := EmptyConfig;
    }

    /** `Logger.log`, `Logger.info`, `Logger.error`, `Logger.warn` and
        `Logger.debug`: build a record at the entry point's level from the
        caller's content and push it. */
    method CallLogger(fn: LoggerFn, message: string, timestamp: int, args: Option<seq<Value>>)
      requires Valid()
      modifies this`logs
      ensures Valid()
      ensures Snapshot() == FLogSpec.Push(old(Snapshot()), Log(FLogSpec.LevelOf(fn), message, timestamp, args))
    {
      PushLogToQueue(Log(FLogSpec.LevelOf(fn), message, timestamp, args));
    }
  }
}
