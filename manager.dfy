/** The channel manager: a façade over one connection engine that keeps an
    observable connection status, a reconnect counter and a listener registry, and
    routes every parsed inbound message to the callbacks registered for its type.

    The manager always passes the engine all four callbacks, wrapped; the
    `Transport…` and `…TimerFires` methods are the transport and timer events seen
    through the engine and those wrappers. */
module Manager {
  import opened Wire
  import opened Registry
  import Engine

  /** The status enumeration, with its numeric values. */
  datatype ConnectionStatus = Connecting | Open | Closing | Closed {
    function Code(): int {
      match this
      case Connecting => 0
      case Open => 1
      case Closing => 2
      case Closed => 3
    }
  }

  const ConnectingText := "连接中"
  const OpenText := "已连接"
  const ClosingText := "关闭中"
  const ClosedText := "已断开"
  const UnknownText := "未知状态"

  /** The `switch` of `getConnectionStatusText` over a status code: four distinct
      texts for the four statuses, a fallback for anything else. */
  function StatusText(code: int): (text: string)
    ensures 0 <= code <= 3 ==> text != UnknownText
    ensures (code < 0 || code > 3) ==> text == UnknownText
    ensures code == 0 <==> text == ConnectingText
    ensures code == 1 <==> text == OpenText
    ensures code == 2 <==> text == ClosingText
    ensures code == 3 <==> text == ClosedText
  {
    if code == 0 then ConnectingText
    else if code == 1 then OpenText
    else if code == 2 then ClosingText
    else if code == 3 then ClosedText
    else UnknownText
  }

  /** The options the manager hands the engine: all four callbacks, wrapped. */
  const Wrapped := Engine.Options(true, true, true, true)

  /** One callback invocation during dispatch: which callback ran, the `data` it was
      given, and whether it threw (caught and logged, dispatch goes on). */
  datatype Call = Call(callback: Callback, data: Data, threw: bool)

  /** `handleMessage`'s promise: a parsed frame with a type runs every callback
      registered for that type, in order, each given only `data`, whatever the
      earlier ones did; any other frame runs none. */
  ghost predicate Delivered(calls: seq<Call>, reg: Listeners, frame: Frame, throws: (Callback, Data) -> bool) {
    if frame.Parsed? && frame.msgType.Some? then
      var callbacks := ListenersFor(reg, frame.msgType.value);
      && |calls| == |callbacks|
      && forall j :: 0 <= j < |calls| ==>
           calls[j] == Call(callbacks[j], frame.data, throws(callbacks[j], frame.data))
    else
      calls == []
  }

  class WebSocketManager {
    const service: Engine.WebSocketService
    var connectionStatus: ConnectionStatus
    var userId: Option<string>
    var reconnectCount: nat
    var listeners: Listeners

    ghost predicate Valid()
      reads this, service
    {
      service.Valid()
    }

    /** The engine is passed in: it is the process-wide single instance. */
    constructor (service: Engine.WebSocketService)
      requires service.Valid()
      ensures Valid() && this.service == service
      ensures connectionStatus == Closed && userId == None && reconnectCount == 0 && listeners == map[]
    {
      this.service := service;
      connectionStatus := Closed;
      userId := None;
      reconnectCount := 0;
      listeners := map[];
    }

    /** Connected exactly when the engine's socket reports OPEN. */
    function IsConnected(): (r: bool)
      reads this, service
      ensures r <==> service.ws.Some? && service.ws.value.state == Engine.Open
    {
      service.IsConnected()
    }

    /** The observable status, whose text is always one of the four known ones. */
    function GetConnectionStatus(): (status: ConnectionStatus)
      reads this
      ensures 0 <= status.Code() <= 3 && StatusText(status.Code()) != UnknownText
      ensures StatusText(status.Code()) == GetConnectionStatusText()
    {
      connectionStatus
    }

    /** The subject of the last `connect` that went through, until `disconnect`. */
    function GetCurrentUserId(): (r: Option<string>)
      reads this
      ensures r == userId
    {
      userId
    }

    /** The status as text; a typed status never reaches the fallback. */
    function GetConnectionStatusText(): (text: string)
      reads this
      ensures text != UnknownText
      ensures text == OpenText <==> connectionStatus == Open
      ensures text == ClosedText <==> connectionStatus == Closed
    {
      StatusText(connectionStatus.Code())
    }

    /** A no-op when already connected; otherwise remembers the subject, reports
        CONNECTING and hands the engine the wrapped callbacks. A socket that cannot be
        built reports through the wrapped `onError` at once. */
    method Connect(userId: string, constructionFails: bool)
      requires Valid()
      modifies this`userId, this`connectionStatus, this`reconnectCount, service
      ensures Valid()
      ensures old(service.IsConnected()) ==> unchanged(this) && unchanged(service)
      ensures !old(service.IsConnected()) ==>
                && this.userId == Some(userId)
                && service.userId == Some(userId) && service.options == Wrapped
                && service.url == Engine.Endpoint(userId) && service.heartbeatTimer == None
                && service.messageQueue == if old(service.ws).Some? then [] else old(service.messageQueue)
      ensures !old(service.IsConnected()) && !constructionFails ==>
                && connectionStatus == Connecting && reconnectCount == old(reconnectCount)
                && service.ws == Some(Engine.Socket(Engine.Endpoint(userId), Engine.Connecting, []))
                && service.reconnectAttempts == old(service.reconnectAttempts)
                && service.reconnectTimer == if old(service.ws).Some? then None else old(service.reconnectTimer)
      ensures !old(service.IsConnected()) && constructionFails ==>
                && connectionStatus == Closed && reconnectCount == old(reconnectCount) + 1
                && service.ws == None
                && (service.reconnectAttempts, service.reconnectTimer) ==
                   Engine.AfterFailure(old(service.reconnectAttempts),
                                       if old(service.ws).Some? then None else old(service.reconnectTimer), userId, Wrapped)
    {
      if IsConnected() {
        return;
      }
      this.userId := Some(userId);
      connectionStatus := Connecting;
      var notice := service.Connect(userId, Wrapped, constructionFails);
      Wrappers(notice);
    }

    /** The wrapped lifecycle callbacks: open reports OPEN and zeroes the counter,
        close reports CLOSED, error reports CLOSED and counts one more. */
    method Wrappers(notice: Option<Engine.Notice>)
      modifies this`connectionStatus, this`reconnectCount
      ensures notice == Some(Engine.OpenCalled) ==> connectionStatus == Open && reconnectCount == 0
      ensures notice == Some(Engine.CloseCalled) ==>
                connectionStatus == Closed && reconnectCount == old(reconnectCount)
      ensures notice == Some(Engine.ErrorCalled) ==>
                connectionStatus == Closed && reconnectCount == old(reconnectCount) + 1
      ensures notice.None? || notice.value.MessageCalled? ==>
                connectionStatus == old(connectionStatus) && reconnectCount == old(reconnectCount)
    {
      if notice.Some? {
        match notice.value
        case OpenCalled =>
          connectionStatus := Open;
          reconnectCount := 0;
        case CloseCalled =>
          connectionStatus := Closed;
        case ErrorCalled =>
          connectionStatus := Closed;
          reconnectCount := reconnectCount + 1;
        case MessageCalled(_) =>
      }
    }

    /** Closes the engine and reports CLOSED with no subject, whatever came before. */
    method Disconnect()
      requires Valid()
      modifies this`connectionStatus, this`userId,
               service`heartbeatTimer, service`ws, service`reconnectTimer, service`userId, service`messageQueue
      ensures Valid()
      ensures connectionStatus == Closed && userId == None
      ensures service.ws == None && service.userId == None
      ensures service.messageQueue == [] && service.heartbeatTimer == None
      ensures service.reconnectTimer == if old(service.ws).Some? then None else old(service.reconnectTimer)
    {
      service.Close();
      connectionStatus := Closed;
      userId := None;
    }

    /** Hands the payload to the engine only when connected, so it is transmitted
        at once; when not connected nothing happens, and nothing is queued. */
    method Send(data: Payload, now: int, newId: Id) returns (ok: bool)
      requires Valid()
      modifies service`ws, service`messageQueue
      ensures Valid()
      ensures ok == old(service.IsConnected())
      ensures service.messageQueue == old(service.messageQueue)
      ensures ok ==> service.ws == Some(old(service.ws).value.(sent := old(service.ws).value.sent + [Stamp(data, now, newId)]))
      ensures !ok ==> service.ws == old(service.ws)
    {
      if !IsConnected() {
        return false;
      }
      service.Send(data, now, newId);
      return true;
    }

    /** As `Send`, for the message `{ type, data, timestamp, id }`. */
    method SendMessage(msgType: string, payload: Data, now: int, newId: Id) returns (ok: bool)
      requires Valid()
      modifies service`ws, service`messageQueue
      ensures Valid()
      ensures ok == old(service.IsConnected())
      ensures service.messageQueue == old(service.messageQueue)
      ensures ok ==> service.ws == Some(old(service.ws).value.(sent := old(service.ws).value.sent + [Envelope(msgType, payload, now, newId)]))
      ensures !ok ==> service.ws == old(service.ws)
    {
      if !IsConnected() {
        return false;
      }
      service.SendMessage(msgType, payload, now, newId);
      return true;
    }

    method OnMessage(messageType: string, callback: Callback)
      modifies this`listeners
      ensures listeners == Subscribe(old(listeners), messageType, callback)
    {
      if messageType !in listeners {
        listeners := listeners[messageType := []];
      }
      var callbacks := listeners[messageType];
      listeners := listeners[messageType := callbacks + [callback]];
    }

    method OffMessage(messageType: string, callback: Callback)
      modifies this`listeners
      ensures listeners == Unsubscribe(old(listeners), messageType, callback)
    {
      if messageType in listeners {
        var callbacks := listeners[messageType];
        var index := IndexOf(callbacks, callback);
        assert Unsubscribe(listeners, messageType, callback) == listeners[messageType := RemoveFirst(callbacks, callback)];
        if index > -1 {
          listeners := listeners[messageType := callbacks[..index] + callbacks[index + 1..]];
        } else {
          assert RemoveFirst(callbacks, callback) == callbacks;
        }
      }
    }

    /** Runs the callbacks registered for the frame's type, in registration order.
        `throws` says which invocations throw; each throw is caught and the loop goes on. */
    method HandleMessage(frame: Frame, throws: (Callback, Data) -> bool) returns (calls: seq<Call>)
      ensures Delivered(calls, listeners, frame, throws)
    {
      calls := [];
      if frame.Parsed? && frame.msgType.Some? && frame.msgType.value in listeners {
        var callbacks := listeners[frame.msgType.value];
        for i := 0 to |callbacks|
          invariant |calls| == i
          invariant forall j :: 0 <= j < i ==>
                      calls[j] == Call(callbacks[j], frame.data, throws(callbacks[j], frame.data))
        {
          var threw := throws(callbacks[i], frame.data);
          calls := calls + [Call(callbacks[i], frame.data, threw)];
        }
      }
    }

    /** The socket opens: the engine drains its queue, then the wrapped `onOpen`
        reports OPEN and zeroes the counter. */
    method TransportOpen(now: int, ids: seq<Id>)
      requires Valid() && service.ws.Some? && service.ws.value.state == Engine.Connecting
      requires |ids| >= |service.messageQueue|
      requires service.options == Wrapped
      modifies this`connectionStatus, this`reconnectCount,
               service`ws, service`reconnectAttempts, service`heartbeatTimer, service`messageQueue
      ensures Valid() && service.IsConnected()
      ensures connectionStatus == Open && reconnectCount == 0
      ensures service.reconnectAttempts == 0 && service.messageQueue == []
      ensures service.ws == Some(old(service.ws).value.(state := Engine.Open,
                                  sent := old(service.ws).value.sent + Engine.Flushed(old(service.messageQueue), now, ids)))
      ensures service.heartbeatTimer == Some(Engine.HeartbeatTimer(Engine.HeartbeatInterval))
    {
      var notice := service.OnOpen(now, ids);
      Wrappers(notice);
    }

    /** A frame arrives: heartbeat replies stop in the engine; everything else goes
        through the wrapped `onMessage` to `handleMessage`. */
    method TransportMessage(frame: Frame, throws: (Callback, Data) -> bool) returns (calls: seq<Call>)
      requires service.ws.Some? && service.options == Wrapped
      ensures IsHeartbeat(frame) ==> calls == []
      ensures !IsHeartbeat(frame) ==> Delivered(calls, listeners, frame, throws)
    {
      var notice := service.OnMessage(frame);
      calls := [];
      if notice.Some? {
        calls := HandleMessage(frame, throws);
      }
    }

    /** The transport starts closing the open socket. No wrapped callback runs, so the
        manager keeps its status (OPEN) while the engine is no longer connected and
        `send` returns false. */
    method TransportClosing()
      requires Valid() && service.ws.Some? && service.ws.value.state == Engine.Open
      modifies service`ws
      ensures Valid() && !IsConnected()
      ensures connectionStatus == old(connectionStatus)
      ensures service.ws == Some(old(service.ws).value.(state := Engine.Closing))
    {
      service.OnClosing();
    }

    /** A transport error: the wrapped `onError` reports CLOSED and counts one more. */
    method TransportError()
      requires Valid() && service.ws.Some? && service.options == Wrapped
      modifies this`connectionStatus, this`reconnectCount, service`ws
      ensures Valid()
      ensures connectionStatus == Closed && reconnectCount == old(reconnectCount) + 1
      ensures service.ws == Some(old(service.ws).value.(state := Engine.Closed))
    {
      var notice := service.OnError();
      Wrappers(notice);
    }

    /** The socket closes: the wrapped `onClose` reports CLOSED, and the engine
        schedules a retry while attempts remain. */
    method TransportClose()
      requires Valid() && service.ws.Some? && service.options == Wrapped
      modifies this`connectionStatus, this`reconnectCount,
               service`ws, service`heartbeatTimer, service`reconnectAttempts, service`reconnectTimer
      ensures Valid()
      ensures connectionStatus == Closed && reconnectCount == old(reconnectCount)
      ensures (service.reconnectAttempts, service.reconnectTimer) ==
              Engine.AfterFailure(old(service.reconnectAttempts), old(service.reconnectTimer), old(service.userId).value, Wrapped)
      ensures service.ws == Some(old(service.ws).value.(state := Engine.Closed)) && service.heartbeatTimer == None
    {
      var notice := service.OnClose();
      Wrappers(notice);
    }

    /** The close event of a socket the engine has already dropped, such as the one
        `disconnect` closed: the wrapped `onClose` reports CLOSED, and the engine
        schedules a retry of the captured subject while attempts remain. */
    method TransportStaleClose(userId: string)
      requires Valid()
      modifies this`connectionStatus, this`reconnectCount,
               service`heartbeatTimer, service`reconnectAttempts, service`reconnectTimer
      ensures Valid()
      ensures connectionStatus == Closed && reconnectCount == old(reconnectCount)
      ensures service.heartbeatTimer == None
      ensures (service.reconnectAttempts, service.reconnectTimer) ==
              Engine.AfterFailure(old(service.reconnectAttempts), old(service.reconnectTimer), userId, Wrapped)
    {
      var notice := service.OnStaleClose(userId, Wrapped);
      Wrappers(notice);
    }

    /** The engine's retry timer fires and calls the engine's `connect` directly,
        not the manager's: the status stays as it was unless the socket cannot be built. */
    method ReconnectTimerFires(constructionFails: bool)
      requires Valid() && service.reconnectTimer.Some? && service.reconnectTimer.value.options == Wrapped
      modifies this`connectionStatus, this`reconnectCount, service
      ensures Valid()
      ensures !constructionFails ==> connectionStatus == old(connectionStatus) && reconnectCount == old(reconnectCount)
      ensures constructionFails ==> connectionStatus == Closed && reconnectCount == old(reconnectCount) + 1
      ensures service.messageQueue == if old(service.ws).Some? then [] else old(service.messageQueue)
      ensures service.userId == Some(old(service.reconnectTimer).value.userId) && service.options == Wrapped
      ensures service.url == Engine.Endpoint(old(service.reconnectTimer).value.userId)
      ensures service.heartbeatTimer == None
      ensures !constructionFails ==>
                && service.ws == Some(Engine.Socket(Engine.Endpoint(old(service.reconnectTimer).value.userId), Engine.Connecting, []))
                && service.reconnectAttempts == old(service.reconnectAttempts)
                && service.reconnectTimer == None
      ensures constructionFails ==>
                && service.ws == None
                && (service.reconnectAttempts, service.reconnectTimer) ==
                   Engine.AfterFailure(old(service.reconnectAttempts), None, old(service.reconnectTimer).value.userId, Wrapped)
    {
      var notice := service.ReconnectTimerFires(constructionFails);
      Wrappers(notice);
    }
  }
}
