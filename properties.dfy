/** Properties of whole sequences of calls on one client: what reaches the
    transport, what the client keeps consistent, and how the session and tab
    identifiers behave across init/destroy cycles. */
module FLogProperties {
  import opened FLogTypes
  import opened FLogSpec

  /** One call a page can make on the client (a timer tick and the unload
      hook are both a `FlushTick`; an intercepted console call or a `Logger`
      entry point is a `Capture`). */
  datatype Call =
    | InitCall(options: Option<ClientConfig>, freshTabId: string, freshSessionId: string)
    | SetUserCall(user: Option<User>)
    | SetPropertyCall(name: string, value: Value)
    | Capture(log: Log)
    | FlushTick
    | DestroyCall

  function Step(s: State, c: Call): State {
    match c
    case InitCall(o, t, sid) => Init(s, o, t, sid).next
    case SetUserCall(u) => SetUser(s, u)
    case SetPropertyCall(k, v) => SetProperty(s, k, v)
    case Capture(log) => Push(s, log)
    case FlushTick => Flush(s)
    case DestroyCall => Destroy(s)
  }

  /** The state after making `calls` in order, starting from `s`. */
  function Run(s: State, calls: seq<Call>): State
    decreases |calls|
  {
    if calls == [] then s else Run(Step(s, calls[0]), calls[1..])
  }

  /** The records captured while the client was initialised, in capture order. */
  function Accepted(s: State, calls: seq<Call>): seq<Log>
    decreases |calls|
  {
    if calls == [] then []
    else
      (if calls[0].Capture? && s.initialized then [calls[0].log] else [])
      + Accepted(Step(s, calls[0]), calls[1..])
  }

  /** One call: what was delivered plus what is still queued grows by exactly
      the record that call accepted. */
  lemma StepConservesRecords(s: State, c: Call)
    ensures AllBases(Step(s, c).sent) + Step(s, c).logs
         == AllBases(s.sent) + s.logs + (if c.Capture? && s.initialized then [c.log] else [])
  {
  }

  /** No record is lost, duplicated or reordered: the records delivered to the
      transport, followed by those still queued, are the records delivered
      and queued before, followed by every record captured while initialised. */
  lemma {:induction false} DeliveredExactlyOnce(s: State, calls: seq<Call>)
    ensures AllBases(Run(s, calls).sent) + Run(s, calls).logs
         == AllBases(s.sent) + s.logs + Accepted(s, calls)
    decreases |calls|
  {
    if calls != [] {
      var s' := Step(s, calls[0]);
      var accepted: seq<Log> := if calls[0].Capture? && s.initialized then [calls[0].log] else [];
      var r := Run(s', calls[1..]);
      var rest := Accepted(s', calls[1..]);
      assert Run(s, calls) == r && Accepted(s, calls) == accepted + rest by {
        UnfoldRun(s, calls);
      }
      StepConservesRecords(s, calls[0]);
      DeliveredExactlyOnce(s', calls[1..]);
      ConcatAssoc(AllBases(s.sent) + s.logs, accepted, rest);
    }
  }

  lemma UnfoldRun(s: State, calls: seq<Call>)
    requires calls != []
    ensures Run(s, calls) == Run(Step(s, calls[0]), calls[1..])
    ensures Accepted(s, calls)
         == (if calls[0].Capture? && s.initialized then [calls[0].log] else [])
            + Accepted(Step(s, calls[0]), calls[1..])
  {
  }

  lemma ConcatAssoc(a: seq<Log>, b: seq<Log>, c: seq<Log>)
    ensures (a + b) + c == a + (b + c)
  {
  }

  /** From a new client, once a final flush has run, the transport has
      received exactly the records captured while initialised, in order; in
      particular a capture made before `init` or after `destroy` never
      reaches it, and as many records arrive as captures were accepted. */
  lemma {:induction false} AllAcceptedRecordsDelivered(cookies: map<string, string>, calls: seq<Call>)
    ensures AllBases(Flush(Run(Initial(cookies), calls)).sent) == Accepted(Initial(cookies), calls)
  {
    var r := Run(Initial(cookies), calls);
    DeliveredExactlyOnce(Initial(cookies), calls);
    assert AllBases(Flush(r).sent) == AllBases(r.sent) + r.logs;
  }

  lemma StepPreservesConsistent(s: State, c: Call)
    requires Consistent(s)
    ensures Consistent(Step(s, c))
  {
  }

  /** Every reachable state is consistent: so every batch ever handed to the
      transport is non-empty and goes to a non-empty endpoint. */
  lemma {:induction false} RunPreservesConsistent(s: State, calls: seq<Call>)
    requires Consistent(s)
    ensures Consistent(Run(s, calls))
    decreases |calls|
  {
    if calls != [] {
      StepPreservesConsistent(s, calls[0]);
      RunPreservesConsistent(Step(s, calls[0]), calls[1..]);
    }
  }

  /** Once the session cookie is set, no sequence of calls changes the cookie
      jar or the client's session id: the session survives any number of
      init/destroy cycles. */
  lemma {:induction false} SessionStable(s: State, calls: seq<Call>)
    requires SessionCookieSet(s.cookies)
    ensures Run(s, calls).cookies == s.cookies
    ensures Run(s, calls).sessionId == s.sessionId
    decreases |calls|
  {
    if calls != [] {
      var s' := Step(s, calls[0]);
      assert s'.cookies == s.cookies && s'.sessionId == s.sessionId;
      SessionStable(s', calls[1..]);
    }
  }

  /** A successful `init` on a page without a session cookie persists the
      fresh id and assigns it to the client. */
  lemma SessionCreatedOnFirstInit(cookies: map<string, string>, options: Option<ClientConfig>,
                                  freshTabId: string, freshSessionId: string)
    requires !SessionCookieSet(cookies) && !EndpointMissing(EffectiveOptions(options))
    requires freshSessionId != ""
    ensures var s := Init(Initial(cookies), options, freshTabId, freshSessionId).next;
            && SessionCookieSet(s.cookies)
            && s.cookies[SessionCookie] == freshSessionId
            && s.sessionId == Some(freshSessionId)
  {
  }

  /** Two init/destroy cycles on one client: the session id is the same in
      both, the tab id is the one minted by each `init`. */
  lemma {:induction false} TwoCycles(cookies: map<string, string>, options: Option<ClientConfig>,
                                     tab1: string, session1: string, tab2: string, session2: string,
                                     between: seq<Call>)
    requires !EndpointMissing(EffectiveOptions(options)) && session1 != "" && tab1 != tab2
    ensures var first := Init(Initial(cookies), options, tab1, session1).next;
            var second := Init(Destroy(Run(first, between)), options, tab2, session2).next;
            && second.initialized
            && second.cookies == first.cookies
            && second.sessionId == first.sessionId
            && first.tabId == Some(tab1) && second.tabId == Some(tab2)
            && first.tabId != second.tabId
  {
    var first := Init(Initial(cookies), options, tab1, session1).next;
    assert SessionCookieSet(first.cookies);
    SessionStable(first, between);
    var mid := Destroy(Run(first, between));
    assert mid.cookies == first.cookies && !mid.initialized;
  }

  /** Calling `init` again while initialised leaves every field as it was,
      whatever options and fresh ids it is given. */
  lemma InitTwiceIsIdempotent(s: State, o1: Option<ClientConfig>, t1: string, s1: string,
                              o2: Option<ClientConfig>, t2: string, s2: string)
    requires Init(s, o1, t1, s1).outcome == Pass
    ensures Init(Init(s, o1, t1, s1).next, o2, t2, s2) == Transition(Init(s, o1, t1, s1).next, Pass)
  {
  }

  /** Properties are read at flush time: after `setProperty(k, v1)` and then
      `setProperty(k, v2)`, every record flushed carries `v2`, including the
      records queued before either call. */
  lemma LastPropertyWriteWins(s: State, name: string, v1: Value, v2: Value)
    requires s.logs != []
    ensures var r := Flush(SetProperty(SetProperty(s, name, v1), name, v2));
            forall e :: e in r.sent[|s.sent|].logs ==> name in e.properties && e.properties[name] == v2
  {
  }

  /** Every batch from index `from` on carries `value` under `name`. */
  ghost predicate CarriesFrom(sent: seq<Batch>, from: nat, name: string, value: Value) {
    forall j, e :: from <= j < |sent| && e in sent[j].logs ==>
      name in e.properties && e.properties[name] == value
  }

  /** A call that neither writes the property `name` nor resets the properties. */
  predicate KeepsProperty(c: Call, name: string) {
    !c.DestroyCall? && !(c.SetPropertyCall? && c.name == name)
  }

  /** While no call writes `name` or destroys the client, `name` keeps its
      value, the batches sent so far stay as they were and every batch sent
      carries the current value of `name`, whenever its records were captured. */
  lemma {:induction false} PropertyHeldUntilOverwritten(s: State, calls: seq<Call>, name: string, value: Value, from: nat)
    requires name in s.properties && s.properties[name] == value
    requires from <= |s.sent| && CarriesFrom(s.sent, from, name, value)
    requires forall i :: 0 <= i < |calls| ==> KeepsProperty(calls[i], name)
    ensures var r := Run(s, calls);
            && name in r.properties && r.properties[name] == value
            && |s.sent| <= |r.sent| && r.sent[..|s.sent|] == s.sent
            && CarriesFrom(r.sent, from, name, value)
    decreases |calls|
  {
    if calls != [] {
      var s' := Step(s, calls[0]);
      UnfoldRun(s, calls);
      StepKeepsProperty(s, calls[0], name, value, from);
      PropertyHeldUntilOverwritten(s', calls[1..], name, value, from);
      var r := Run(s', calls[1..]);
      assert r.sent[..|s.sent|] == r.sent[..|s'.sent|][..|s.sent|];
    }
  }

  /** One step of PropertyHeldUntilOverwritten: a flush enriches its batch
      with the current properties. */
  lemma StepKeepsProperty(s: State, c: Call, name: string, value: Value, from: nat)
    requires name in s.properties && s.properties[name] == value
    requires from <= |s.sent| && CarriesFrom(s.sent, from, name, value)
    requires KeepsProperty(c, name)
    ensures var s' := Step(s, c);
            && name in s'.properties && s'.properties[name] == value
            && |s.sent| <= |s'.sent| && s'.sent[..|s.sent|] == s.sent
            && CarriesFrom(s'.sent, from, name, value)
  {
    var s' := Step(s, c);
    if c.FlushTick? && s.logs != [] {
      forall j, e | from <= j < |s'.sent| && e in s'.sent[j].logs
        ensures name in e.properties && e.properties[name] == value
      {
        if j == |s.sent| {
          var k :| 0 <= k < |s.logs| && s'.sent[j].logs[k] == e;
          assert e == Enrich(s.logs[k], ContextOf(s));
        } else {
          assert s'.sent[j] == s.sent[j];
        }
      }
    }
  }

  /** After `setProperty(k, v1)` and then `setProperty(k, v2)`, every batch
      sent by any later calls that neither write `k` nor destroy the client
      carries `v2` under `k`, including records captured after the writes. */
  lemma LaterFlushesCarryLastWrite(s: State, name: string, v1: Value, v2: Value, calls: seq<Call>)
    requires forall i :: 0 <= i < |calls| ==> KeepsProperty(calls[i], name)
    ensures var r := Run(SetProperty(SetProperty(s, name, v1), name, v2), calls);
            && |s.sent| <= |r.sent| && r.sent[..|s.sent|] == s.sent
            && forall j, e :: |s.sent| <= j < |r.sent| && e in r.sent[j].logs ==>
                 name in e.properties && e.properties[name] == v2
  {
    var p := SetProperty(SetProperty(s, name, v1), name, v2);
    PropertyHeldUntilOverwritten(p, calls, name, v2, |p.sent|);
  }

  /** The same, ending with `destroy`: the batch its final flush sends still
      carries `v2` under `k`, and only afterwards are the properties cleared. */
  lemma LastWriteReachesFinalDestroy(s: State, name: string, v1: Value, v2: Value, calls: seq<Call>)
    requires forall i :: 0 <= i < |calls| ==> KeepsProperty(calls[i], name)
    ensures var q := Run(SetProperty(SetProperty(s, name, v1), name, v2), calls);
            var r := Destroy(q);
            && |s.sent| <= |r.sent| && r.sent[..|s.sent|] == s.sent
            && (forall j, e :: |s.sent| <= j < |r.sent| && e in r.sent[j].logs ==>
                  name in e.properties && e.properties[name] == v2)
            && r.properties == map[]
  {
    var p := SetProperty(SetProperty(s, name, v1), name, v2);
    PropertyHeldUntilOverwritten(p, calls, name, v2, |p.sent|);
    var q := Run(p, calls);
    StepKeepsProperty(q, FlushTick, name, v2, |p.sent|);
    var r := Destroy(q);
    assert r.sent[..|s.sent|] == r.sent[..|q.sent|][..|s.sent|];
  }

  /** `init` with an endpoint, one `Logger.error("boom")`, one flush: the
      transport receives one batch of one record, at level error, with empty
      properties, no user and the session and tab ids just minted. */
  lemma ErrorScenario(timestamp: int, tab: string, session: string)
    ensures var s0 := Initial(map[]);
            var s1 := Init(s0, Some(ClientConfig(Some("https://x/y"), None)), tab, session).next;
            var s2 := Push(s1, Log(LevelOf(ErrorFn), "boom", timestamp, None));
            Flush(s2).sent == [Batch("https://x/y",
                                     [EnrichedLog(Error, "boom", timestamp, None, map[], None,
                                                  Some(session), Some(tab))])]
  {
    var s1 := Init(Initial(map[]), Some(ClientConfig(Some("https://x/y"), None)), tab, session).next;
    assert s1.initialized && s1.config.endpoint == "https://x/y";
    assert s1.sessionId == Some(session) && s1.tabId == Some(tab);
    var log := Log(Error, "boom", timestamp, None);
    var s2 := Push(s1, log);
    assert s2.logs == [log];
    assert EnrichAll([log], ContextOf(s2)) == [Enrich(log, ContextOf(s2))];
  }
}
