/** Clients of the engine and the manager that drive them through sequences of
    events and state what comes out, using nothing but the methods' contracts. */
module Scenarios {
  import opened Wire
  import Engine
  import opened Registry
  import Manager

  const Plain := Engine.Options(false, false, false, false)

  /** Three truthy payloads sent before the socket opens go out on open in the order
      they were sent, each once, each stamped as `send` stamps it. */
  method QueuedSendsArriveInOrder(a: Payload, b: Payload, c: Payload, now: int, ids: seq<Id>)
    returns (sent: seq<Payload>)
    requires Truthy(a) && Truthy(b) && Truthy(c) && |ids| >= 3
    ensures sent == [Stamp(a, now, ids[0]), Stamp(b, now, ids[1]), Stamp(c, now, ids[2])]
  {
    var e := new Engine.WebSocketService();
    var _ := e.Connect("u", Plain, false);
    e.Send(a, now, ids[0]);
    e.Send(b, now, ids[1]);
    e.Send(c, now, ids[2]);
    assert e.messageQueue == [a, b, c];
    var _ := e.OnOpen(now, ids);
    Engine.FlushedDelivers([a, b, c], now, ids);
    sent := e.ws.value.sent;
  }

  /** A socket that keeps closing before it opens is retried five times, after
      5000, 10000, 15000, 20000 and 25000 ms, and then no more. */
  method BackoffGivesUp() returns (delays: seq<nat>, sixthScheduled: bool)
    ensures delays == Engine.Retries(0, 6) == [5000, 10000, 15000, 20000, 25000]
    ensures !sixthScheduled
  {
    var e := new Engine.WebSocketService();
    var _ := e.Connect("u", Plain, false);
    delays := [];
    var failures := 0;
    while failures < Engine.MaxReconnectAttempts
      invariant failures <= Engine.MaxReconnectAttempts
      invariant e.Valid() && e.ws.Some? && e.reconnectAttempts == failures && e.reconnectTimer == None
      invariant |delays| == failures
      invariant forall j :: 0 <= j < failures ==> delays[j] == Engine.RetryDelay(j + 1)
    {
      var _ := e.OnClose();
      delays := delays + [e.reconnectTimer.value.delay];
      var _ := e.ReconnectTimerFires(false);
      failures := failures + 1;
    }
    var _ := e.OnClose();
    sixthScheduled := e.reconnectTimer.Some?;
    Engine.AtMostFiveRetries(6);
  }

  /** After three failed attempts, one successful open makes the next close retry
      after the first delay again, not the fourth. */
  method OpenRestartsBackoff(now: int) returns (delay: nat)
    ensures delay == Engine.RetryDelay(1) == 5000
  {
    var e := new Engine.WebSocketService();
    var _ := e.Connect("u", Plain, false);
    var _ := e.OnClose();
    var _ := e.ReconnectTimerFires(false);
    var _ := e.OnClose();
    var _ := e.ReconnectTimerFires(false);
    var _ := e.OnClose();
    assert e.reconnectAttempts == 3;
    var _ := e.ReconnectTimerFires(false);
    var _ := e.OnOpen(now, []);
    var _ := e.OnClose();
    delay := e.reconnectTimer.value.delay;
  }

  /** A repeated `close` changes nothing further: every field is as the first call
      left it. */
  method CloseTwice(e: Engine.WebSocketService)
    requires e.Valid()
    modifies e
    ensures e.Valid() && e.ws == None && e.userId == None && e.messageQueue == [] && e.heartbeatTimer == None
    ensures e.reconnectTimer == (if old(e.ws).Some? then None else old(e.reconnectTimer))
    ensures e.reconnectAttempts == old(e.reconnectAttempts)
  {
    e.Close();
    ghost var reconnectTimer, attempts := e.reconnectTimer, e.reconnectAttempts;
    e.Close();
    assert e.reconnectTimer == reconnectTimer && e.reconnectAttempts == attempts;
  }

  /** A payload sent after the socket dropped waits in the queue, but the retry's
      `connect` closes the dead socket first and so empties the queue: the payload
      is never transmitted, even once the new socket opens. */
  method SendAfterDropIsLost(p: Payload, now: int, newId: Id) returns (sent: seq<Payload>)
    ensures sent == []
  {
    var e := new Engine.WebSocketService();
    var _ := e.Connect("u", Plain, false);
    var _ := e.OnOpen(now, []);
    var _ := e.OnClose();
    e.Send(p, now, newId);
    assert e.messageQueue == [p];
    var _ := e.ReconnectTimerFires(false);
    assert e.messageQueue == [];
    var _ := e.OnOpen(now, []);
    sent := e.ws.value.sent;
  }

  /** When the first socket cannot be built, a retry is pending with no socket in
      place; `close` then leaves that retry armed, and its firing connects again. */
  method RetrySurvivesClose() returns (ws: Option<Engine.Socket>, userId: Option<string>)
    ensures ws == Some(Engine.Socket(Engine.Endpoint("u"), Engine.Connecting, []))
    ensures userId == Some("u")
  {
    var e := new Engine.WebSocketService();
    var _ := e.Connect("u", Plain, true);
    e.Close();
    assert e.reconnectTimer.Some? && e.userId == None;
    var _ := e.ReconnectTimerFires(false);
    ws, userId := e.ws, e.userId;
  }

  /** Two callbacks for "alarm", the first of which throws: both run, in order, and
      the second still receives the message's data. */
  method ThrowingCallbackIsIsolated(d: Data) returns (calls: seq<Manager.Call>)
    ensures calls == [Manager.Call(1, d, true), Manager.Call(2, d, false)]
  {
    var e := new Engine.WebSocketService();
    var m := new Manager.WebSocketManager(e);
    m.OnMessage("alarm", 1);
    m.OnMessage("alarm", 2);
    assert m.listeners["alarm"] == [1, 2];
    calls := m.HandleMessage(Parsed(Some("alarm"), d, None), (cb: Callback, _: Data) => cb == 1);
  }

  /** A heartbeat reply reaches no subscriber, not even one registered for the
      heartbeat type itself. */
  method HeartbeatReplyIsSwallowed(d: Data) returns (calls: seq<Manager.Call>)
    ensures calls == []
  {
    var e := new Engine.WebSocketService();
    var m := new Manager.WebSocketManager(e);
    m.OnMessage(HeartbeatType, 7);
    m.Connect("u", false);
    calls := m.TransportMessage(Parsed(Some(HeartbeatType), d, None), (cb: Callback, _: Data) => false);
  }

  /** `close` after an open does not stop the channel for good: the closed socket's
      own close event still arrives, finds the counter at zero, and schedules a
      retry of the old subject 5000 ms later, which connects again. */
  method CloseAfterOpenIsRetried(now: int) returns (delay: nat, ws: Option<Engine.Socket>)
    ensures delay == Engine.RetryDelay(1) == 5000
    ensures ws == Some(Engine.Socket(Engine.Endpoint("u"), Engine.Connecting, []))
  {
    var e := new Engine.WebSocketService();
    var _ := e.Connect("u", Plain, false);
    var _ := e.OnOpen(now, []);
    e.Close();
    assert e.ws == None && e.reconnectAttempts == 0;
    var _ := e.OnStaleClose("u", Plain);
    delay := e.reconnectTimer.value.delay;
    var _ := e.ReconnectTimerFires(false);
    ws := e.ws;
  }

  /** The same through the manager: after `disconnect` it reports CLOSED with no
      subject, yet the engine is connecting to the old subject again. */
  method DisconnectIsUndone(now: int) returns (status: Manager.ConnectionStatus, userId: Option<string>, ws: Option<Engine.Socket>)
    ensures status == Manager.Closed && userId == None
    ensures ws == Some(Engine.Socket(Engine.Endpoint("u"), Engine.Connecting, []))
  {
    var e := new Engine.WebSocketService();
    var m := new Manager.WebSocketManager(e);
    m.Connect("u", false);
    m.TransportOpen(now, []);
    m.Disconnect();
    m.TransportStaleClose("u");
    m.ReconnectTimerFires(false);
    status, userId, ws := m.GetConnectionStatus(), m.GetCurrentUserId(), m.service.ws;
  }

  /** While the socket is CLOSING, the readiness code is 2, a `send` is queued rather
      than transmitted, and the retry's `connect` after the close event discards it:
      nothing is transmitted on the old socket or on the new one once it opens. */
  method SendWhileClosingIsLost(p: Payload, now: int, newId: Id) returns (readyState: Option<int>, oldSent: seq<Payload>, newSent: seq<Payload>)
    ensures readyState == Some(Engine.ReadyState.Closing.Code()) == Some(2)
    ensures oldSent == [] && newSent == []
  {
    var e := new Engine.WebSocketService();
    var _ := e.Connect("u", Plain, false);
    var _ := e.OnOpen(now, []);
    e.OnClosing();
    readyState := e.GetReadyState();
    e.Send(p, now, newId);
    assert e.messageQueue == [p];
    oldSent := e.ws.value.sent;
    var _ := e.OnClose();
    var _ := e.ReconnectTimerFires(false);
    assert e.messageQueue == [];
    var _ := e.OnOpen(now, []);
    newSent := e.ws.value.sent;
  }
}
