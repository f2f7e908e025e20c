/** The connection engine: one socket at a time, an outbound queue for sends made
    while it is not open, a heartbeat while it is open, and linear-backoff
    reconnection bounded by a fixed number of attempts.

    Every event is an atomic method call: the caller's `connect`, `send`,
    `sendMessage` and `close`; the transport's open, message, error and close
    events on the current socket; and the firing of the two timers. The clock and
    the id generator are parameters. The consumer's callbacks are not run here:
    each event returns the `Notice` naming the callback it invokes, if the
    consumer supplied one. */
module Engine {
  import opened Wire

  const MaxReconnectAttempts: nat := 5
  const ReconnectBaseDelay: nat := 5000
  const HeartbeatInterval: nat := 30000

  /** The endpoint path for a subject; the scheme and host come from the page. */
  const BasePath := "/api/websocket/"

  function Endpoint(userId: string): (path: string)
    ensures |path| == |BasePath| + |userId|
    ensures path[..|BasePath|] == BasePath && path[|BasePath|..] == userId
  {
    BasePath + userId
  }

  /** Different subjects are given different endpoints. */
  lemma EndpointInjective(a: string, b: string)
    ensures Endpoint(a) == Endpoint(b) <==> a == b
  {
    if Endpoint(a) == Endpoint(b) {
      assert a == Endpoint(a)[|BasePath|..];
    }
  }

  /** The transport's readiness indicator, with its numeric codes. */
  datatype ReadyState = Connecting | Open | Closing | Closed {
    function Code(): int {
      match this
      case Connecting => 0
      case Open => 1
      case Closing => 2
      case Closed => 3
    }
  }

  /** The physical connection: its endpoint, its readiness, and every frame handed
      to its `send`, oldest first. */
  datatype Socket = Socket(url: string, state: ReadyState, sent: seq<Payload>)

  /** Which of the consumer's four callbacks were passed to `connect`. */
  datatype Options = Options(onOpen: bool, onClose: bool, onError: bool, onMessage: bool)

  /** A consumer callback the engine invokes, with the frame it hands to `onMessage`. */
  datatype Notice = OpenCalled | CloseCalled | ErrorCalled | MessageCalled(frame: Frame)

  function Notify(supplied: bool, n: Notice): (r: Option<Notice>)
    ensures r.Some? <==> supplied
    ensures r.Some? ==> r.value == n
  {
    if supplied then Some(n) else None
  }

  /** The pending `setInterval` of the heartbeat. */
  datatype HeartbeatTimer = HeartbeatTimer(period: nat)

  /** The pending reconnect `setTimeout`: its delay and the arguments its callback
      passes back to `connect`. */
  datatype RetryTimer = RetryTimer(delay: nat, userId: string, options: Options)

  /** The delay before reconnect attempt number `attempt`: linear backoff. */
  function RetryDelay(attempt: nat): (delay: nat) {
    ReconnectBaseDelay * attempt
  }

  ghost predicate IsRetryDelay(d: nat) {
    exists k :: 1 <= k <= MaxReconnectAttempts && d == RetryDelay(k)
  }

  /** The attempt counter and pending retry after a failure (a close event, or a
      socket that could not be built): a retry is scheduled only below the maximum,
      counting the attempt before computing its delay, and replaces any pending one. */
  function AfterFailure(attempts: nat, pending: Option<RetryTimer>, userId: string, options: Options): (r: (nat, Option<RetryTimer>))
    ensures attempts <= MaxReconnectAttempts ==> r.0 <= MaxReconnectAttempts
    ensures r.0 != attempts <==> attempts < MaxReconnectAttempts
    ensures r.0 != attempts ==> r.0 == attempts + 1 && r.1 == Some(RetryTimer(RetryDelay(r.0), userId, options))
    ensures r.0 != attempts ==> IsRetryDelay(r.1.value.delay)
    ensures r.0 == attempts ==> r.1 == pending
  {
    if attempts < MaxReconnectAttempts then
      (attempts + 1, Some(RetryTimer(RetryDelay(attempts + 1), userId, options)))
    else
      (attempts, pending)
  }

  /** The delays scheduled by `failures` consecutive failures, starting from counter
      `attempts`, when no open intervenes. */
  function Retries(attempts: nat, failures: nat): (delays: seq<nat>)
    decreases failures
  {
    if failures == 0 then []
    else if attempts < MaxReconnectAttempts then [RetryDelay(attempts + 1)] + Retries(attempts + 1, failures - 1)
    else Retries(attempts, failures - 1)
  }

  /** `Retries` is what repeated `AfterFailure` steps schedule: one failure adds the
      delay of the retry it arms, if it arms one, ahead of what the later failures
      schedule from the new counter. */
  lemma RetriesFollowAfterFailure(attempts: nat, failures: nat, pending: Option<RetryTimer>, userId: string, options: Options)
    ensures var (next, timer) := AfterFailure(attempts, pending, userId, options);
            Retries(attempts, failures + 1) == (if next != attempts then [timer.value.delay] else []) + Retries(next, failures)
  {
  }

  function Min(a: nat, b: nat): (m: nat) {
    if a <= b then a else b
  }

  /** From counter `attempts`, failures schedule the next attempts' delays in turn and
      stop once the counter reaches the maximum. */
  lemma {:induction false} RetriesSchedule(attempts: nat, failures: nat)
    requires attempts <= MaxReconnectAttempts
    decreases failures
    ensures |Retries(attempts, failures)| == Min(failures, MaxReconnectAttempts - attempts)
    ensures forall i :: 0 <= i < |Retries(attempts, failures)| ==>
              Retries(attempts, failures)[i] == RetryDelay(attempts + i + 1)
  {
    if failures > 0 {
      RetriesSchedule(if attempts < MaxReconnectAttempts then attempts + 1 else attempts, failures - 1);
    }
  }

  /** Between two successful opens at most five reconnects are scheduled, at
      5000, 10000, 15000, 20000 and 25000 ms. */
  lemma AtMostFiveRetries(failures: nat)
    ensures failures >= MaxReconnectAttempts ==> Retries(0, failures) == [5000, 10000, 15000, 20000, 25000]
    ensures failures < MaxReconnectAttempts ==> |Retries(0, failures)| == failures
    ensures forall d :: d in Retries(0, failures) ==> 5000 <= d <= 25000
  {
    RetriesSchedule(0, failures);
    var r := Retries(0, failures);
    forall d | d in r ensures 5000 <= d <= 25000 {
      var i :| 0 <= i < |r| && r[i] == d;
    }
  }

  /** What one queued message contributes to the flush: `if (message)` skips falsy
      values, and `send` stamps the rest. */
  function Emitted(p: Payload, now: int, newId: Id): (frames: seq<Payload>) {
    if Truthy(p) then [Stamp(p, now, newId)] else []
  }

  /** The frames a flush transmits for `queue` on an open socket, the i-th message
      using the i-th generated id. */
  function Flushed(queue: seq<Payload>, now: int, ids: seq<Id>): (frames: seq<Payload>)
    requires |ids| >= |queue|
    ensures |frames| <= |queue|
    decreases |queue|
  {
    if queue == [] then [] else Emitted(queue[0], now, ids[0]) + Flushed(queue[1..], now, ids[1..])
  }

  /** Flushing two queues one after the other transmits what flushing their
      concatenation does: the flush preserves enqueue order. */
  lemma {:induction false} FlushedAppend(a: seq<Payload>, b: seq<Payload>, now: int, ids: seq<Id>)
    requires |ids| >= |a| + |b|
    ensures Flushed(a + b, now, ids) == Flushed(a, now, ids) + Flushed(b, now, ids[|a|..])
  {
    if a == [] {
      assert a + b == b && ids[|a|..] == ids;
    } else {
      assert (a + b)[1..] == a[1..] + b;
      assert ids[1..][|a| - 1..] == ids[|a|..];
      FlushedAppend(a[1..], b, now, ids[1..]);
    }
  }

  /** A flush of truthy messages transmits each of them exactly once, in enqueue
      order, each as `send` would stamp it. */
  lemma {:induction false} FlushedDelivers(queue: seq<Payload>, now: int, ids: seq<Id>)
    requires |ids| >= |queue|
    requires forall k :: 0 <= k < |queue| ==> Truthy(queue[k])
    ensures |Flushed(queue, now, ids)| == |queue|
    ensures forall k :: 0 <= k < |queue| ==> Flushed(queue, now, ids)[k] == Stamp(queue[k], now, ids[k])
  {
    if queue != [] {
      FlushedDelivers(queue[1..], now, ids[1..]);
    }
  }

  /** Messages that already carry an id (everything `sendMessage` queues) come out
      of the flush exactly as they went in. */
  lemma {:induction false} FlushedIdentified(queue: seq<Payload>, now: int, ids: seq<Id>)
    requires |ids| >= |queue|
    requires forall k :: 0 <= k < |queue| ==> HasId(queue[k])
    ensures Flushed(queue, now, ids) == queue
  {
    if queue != [] {
      FlushedIdentified(queue[1..], now, ids[1..]);
      assert queue == [queue[0]] + queue[1..];
    }
  }

  /** The single-connection client. */
  class WebSocketService {
    var ws: Option<Socket>
    var url: string
    var options: Options
    var reconnectTimer: Option<RetryTimer>
    var reconnectAttempts: nat
    var heartbeatTimer: Option<HeartbeatTimer>
    var userId: Option<string>
    var messageQueue: seq<Payload>

    /** What every event preserves: the counter never passes the maximum, a pending
        retry has a backoff delay, the heartbeat only exists with a socket, nothing
        waits in the queue while the socket is open, and a socket has a subject. */
    ghost predicate Valid()
      reads this
    {
      && reconnectAttempts <= MaxReconnectAttempts
      && (reconnectTimer.Some? ==> IsRetryDelay(reconnectTimer.value.delay))
      && (heartbeatTimer.Some? ==> ws.Some? && heartbeatTimer.value.period == HeartbeatInterval)
      && (messageQueue != [] ==> !IsConnected())
      && (ws.Some? ==> userId.Some?)
    }

    constructor ()
      ensures Valid()
      ensures ws == None && userId == None && messageQueue == []
      ensures reconnectAttempts == 0 && reconnectTimer == None && heartbeatTimer == None
    {
      ws := None;
      url := "";
      options := Options(false, false, false, false);
      reconnectTimer := None;
      reconnectAttempts := 0;
      heartbeatTimer := None;
      userId := None;
      messageQueue := [];
    }

    /** The socket exists and reports OPEN. */
    function IsConnected(): (r: bool)
      reads this
      ensures r <==> ws.Some? && ws.value.state.Code() == 1
    {
      ws.Some? && ws.value.state == Open
    }

    /** The socket's numeric readiness code, or null without a socket. */
    function GetReadyState(): (r: Option<int>)
      reads this
      ensures r.None? <==> ws.None?
      ensures r == Some(ReadyState.Open.Code()) <==> IsConnected()
      ensures r.Some? ==> 0 <= r.value <= 3
    {
      if ws.Some? then Some(ws.value.state.Code()) else None
    }

    /** The remembered subject; a socket always has one. */
    function GetCurrentUserId(): (r: Option<string>)
      reads this
      requires Valid()
      ensures ws.Some? ==> r.Some?
    {
      userId
    }

    /** Drops any existing socket, remembers the subject and options, and builds a
        new socket in CONNECTING. A construction failure reports to `onError` and
        takes the bounded reconnect path. The counter is not reset here. */
    method Connect(userId: string, options: Options, constructionFails: bool) returns (notice: Option<Notice>)
      requires Valid()
      modifies this`ws, this`url, this`options, this`reconnectTimer, this`reconnectAttempts,
               this`heartbeatTimer, this`userId, this`messageQueue
      ensures Valid()
      ensures this.userId == Some(userId) && this.options == options && url == Endpoint(userId)
      ensures heartbeatTimer == None
      ensures messageQueue == if old(ws).Some? then [] else old(messageQueue)
      ensures !constructionFails ==>
                && ws == Some(Socket(Endpoint(userId), Connecting, []))
                && notice == None
                && reconnectAttempts == old(reconnectAttempts)
                && reconnectTimer == if old(ws).Some? then None else old(reconnectTimer)
      ensures constructionFails ==>
                && ws == None
                && notice == Notify(options.onError, ErrorCalled)
                && (reconnectAttempts, reconnectTimer) ==
                   AfterFailure(old(reconnectAttempts), if old(ws).Some? then None else old(reconnectTimer), userId, options)
    {
      if ws.Some? {
        Close();
      }
      this.userId := Some(userId);
      this.options := options;
      url := Endpoint(userId);
      if !constructionFails {
        ws := Some(Socket(url, Connecting, []));
        notice := None;
      } else {
        notice := Notify(options.onError, ErrorCalled);
        if reconnectAttempts < MaxReconnectAttempts {
          Reconnect(userId, options);
        }
      }
    }

    /** The heartbeat interval's callback: while open, send a keep-alive message. */
    method SendHeartbeat(now: int, newId: Id)
      requires Valid() && heartbeatTimer.Some?
      modifies this`ws, this`messageQueue
      ensures Valid()
      ensures messageQueue == old(messageQueue)
      ensures ws == if old(IsConnected())
                    then Some(old(ws).value.(sent := old(ws).value.sent + [Stamp(HeartbeatMessage(now), now, newId)]))
                    else old(ws)
    {
      if IsConnected() {
        Send(HeartbeatMessage(now), now, newId);
      }
    }

    method StartHeartbeat()
      modifies this`heartbeatTimer
      ensures heartbeatTimer == Some(HeartbeatTimer(HeartbeatInterval))
    {
      StopHeartbeat();
      heartbeatTimer := Some(HeartbeatTimer(HeartbeatInterval));
    }

    method StopHeartbeat()
      modifies this`heartbeatTimer
      ensures heartbeatTimer == None
    {
      if heartbeatTimer.Some? {
        heartbeatTimer := None;
      }
    }

    /** On an open socket, transmits exactly one frame (stamped when it is an object
        without an id) and leaves the queue alone; otherwise appends the payload,
        unchanged, to the queue and transmits nothing. */
    method Send(data: Payload, now: int, newId: Id)
      modifies this`ws, this`messageQueue
      ensures old(Valid()) ==> Valid()
      ensures old(IsConnected()) ==>
                && ws == Some(old(ws).value.(sent := old(ws).value.sent + [Stamp(data, now, newId)]))
                && messageQueue == old(messageQueue)
      ensures !old(IsConnected()) ==> ws == old(ws) && messageQueue == old(messageQueue) + [data]
    {
      if ws.Some? && ws.value.state == Open {
        var messageToSend := Stamp(data, now, newId);
        ws := Some(ws.value.(sent := ws.value.sent + [messageToSend]));
      } else {
        messageQueue := messageQueue + [data];
      }
    }

    /** Sends `{ type, data, timestamp, id }`; being identified already, it goes out
        or into the queue exactly as built. */
    method SendMessage(msgType: string, payload: Data, now: int, newId: Id)
      modifies this`ws, this`messageQueue
      ensures old(Valid()) ==> Valid()
      ensures old(IsConnected()) ==>
                && ws == Some(old(ws).value.(sent := old(ws).value.sent + [Envelope(msgType, payload, now, newId)]))
                && messageQueue == old(messageQueue)
      ensures !old(IsConnected()) ==>
                ws == old(ws) && messageQueue == old(messageQueue) + [Envelope(msgType, payload, now, newId)]
    {
      var message := Envelope(msgType, payload, now, newId);
      Send(message, now, newId);
    }

    /** Drains the queue front to back through `send` on an open socket. */
    method FlushMessageQueue(now: int, ids: seq<Id>)
      requires IsConnected() && |ids| >= |messageQueue|
      modifies this`ws, this`messageQueue
      ensures messageQueue == []
      ensures ws == Some(old(ws).value.(sent := old(ws).value.sent + Flushed(old(messageQueue), now, ids)))
    {
      ghost var queue := messageQueue;
      ghost var sent := ws.value.sent;
      var i := 0;
      assert queue[..i] == [] && ws.value.sent + [] == sent;
      while |messageQueue| > 0
        invariant 0 <= i <= |queue|
        invariant messageQueue == queue[i..]
        invariant ws == Some(old(ws).value.(sent := sent + Flushed(queue[..i], now, ids)))
        decreases |messageQueue|
      {
        var message := messageQueue[0];
        messageQueue := messageQueue[1..];
        ghost var before := Flushed(queue[..i], now, ids);
        if Truthy(message) {
          Send(message, now, ids[i]);
          assert ws.value.sent == sent + (before + [Stamp(message, now, ids[i])]);
        } else {
          assert before + Emitted(message, now, ids[i]) == before;
        }
        assert queue[..i + 1] == queue[..i] + [message];
        FlushedAppend(queue[..i], [message], now, ids);
        assert Flushed([message], now, ids[i..]) == Emitted(message, now, ids[i]);
        assert Flushed(queue[..i + 1], now, ids) == before + Emitted(message, now, ids[i]);
        i := i + 1;
      }
      assert queue[..i] == queue;
    }

    /** Stops the heartbeat, empties the queue and forgets the subject; only when a
        socket exists does it close and drop it and cancel the pending retry. */
    method Close()
      requires Valid()
      modifies this`heartbeatTimer, this`ws, this`reconnectTimer, this`userId, this`messageQueue
      ensures Valid()
      ensures heartbeatTimer == None && ws == None && userId == None && messageQueue == []
      ensures reconnectTimer == if old(ws).Some? then None else old(reconnectTimer)
    {
      StopHeartbeat();
      if ws.Some? {
        // ws.close(): the socket moves to CLOSING and the engine lets go of it
        ws := None;
        if reconnectTimer.Some? {
          reconnectTimer := None;
        }
      }
      userId := None;
      messageQueue := [];
    }

    /** Counts one more attempt and arms the retry timer with its backoff delay,
        replacing any pending one. */
    method Reconnect(userId: string, options: Options)
      modifies this`reconnectAttempts, this`reconnectTimer
      ensures reconnectAttempts == old(reconnectAttempts) + 1
      ensures reconnectTimer == Some(RetryTimer(RetryDelay(reconnectAttempts), userId, options))
    {
      reconnectAttempts := reconnectAttempts + 1;
      var delayMs := RetryDelay(reconnectAttempts);
      reconnectTimer := Some(RetryTimer(delayMs, userId, options));
    }

    /** The transport's open event: the counter is reset, the heartbeat restarted,
        and the queue drained in order before `onOpen` runs. */
    method OnOpen(now: int, ids: seq<Id>) returns (notice: Option<Notice>)
      requires Valid() && ws.Some? && ws.value.state == Connecting
      requires |ids| >= |messageQueue|
      modifies this`ws, this`reconnectAttempts, this`heartbeatTimer, this`messageQueue
      ensures Valid() && IsConnected()
      ensures ws == Some(old(ws).value.(state := Open, sent := old(ws).value.sent + Flushed(old(messageQueue), now, ids)))
      ensures messageQueue == [] && reconnectAttempts == 0
      ensures heartbeatTimer == Some(HeartbeatTimer(HeartbeatInterval))
      ensures notice == Notify(options.onOpen, OpenCalled)
    {
      ws := Some(ws.value.(state := Open));
      reconnectAttempts := 0;
      StartHeartbeat();
      FlushMessageQueue(now, ids);
      notice := Notify(options.onOpen, OpenCalled);
    }

    /** The transport's message event: everything but a heartbeat reply reaches
        `onMessage`, including frames that do not parse. */
    method OnMessage(frame: Frame) returns (notice: Option<Notice>)
      requires ws.Some?
      ensures notice.Some? <==> options.onMessage && !IsHeartbeat(frame)
      ensures notice.Some? ==> notice.value == MessageCalled(frame)
    {
      var heartbeat := frame.Parsed? && frame.msgType == Some(HeartbeatType);
      if heartbeat {
        notice := None;
        return;
      }
      notice := Notify(options.onMessage, MessageCalled(frame));
    }

    /** The transport starts the closing handshake (the server began it, or the
        connection is failing): the socket reports CLOSING until its close event.
        Meanwhile it is not connected, so `send` queues and the heartbeat sends nothing. */
    method OnClosing()
      requires Valid() && ws.Some? && ws.value.state == Open
      modifies this`ws
      ensures Valid() && !IsConnected()
      ensures ws == Some(old(ws).value.(state := Closing))
    {
      ws := Some(ws.value.(state := Closing));
    }

    /** The transport's error event, which it fires after marking the socket CLOSED
        and before the close event; it only reports to `onError`. */
    method OnError() returns (notice: Option<Notice>)
      requires Valid() && ws.Some?
      modifies this`ws
      ensures Valid()
      ensures ws == Some(old(ws).value.(state := Closed))
      ensures notice == Notify(options.onError, ErrorCalled)
    {
      ws := Some(ws.value.(state := Closed));
      notice := Notify(options.onError, ErrorCalled);
    }

    /** The transport's close event: the heartbeat stops, `onClose` is told, and a
        retry is scheduled while attempts remain. The dead socket stays in place. */
    method OnClose() returns (notice: Option<Notice>)
      requires Valid() && ws.Some?
      modifies this`ws, this`heartbeatTimer, this`reconnectAttempts, this`reconnectTimer
      ensures Valid()
      ensures ws == Some(old(ws).value.(state := Closed)) && heartbeatTimer == None
      ensures notice == Notify(options.onClose, CloseCalled)
      ensures (reconnectAttempts, reconnectTimer) ==
              AfterFailure(old(reconnectAttempts), old(reconnectTimer), old(userId).value, options)
    {
      ws := Some(ws.value.(state := Closed));
      StopHeartbeat();
      notice := Notify(options.onClose, CloseCalled);
      if reconnectAttempts < MaxReconnectAttempts {
        Reconnect(userId.value, options);
      }
    }

    /** The close event of a socket the engine no longer holds, because `close` dropped
        it or `connect` replaced it: its handler still runs with the subject and
        options it captured, stops whatever heartbeat is pending, tells that `onClose`,
        and schedules a retry of the captured subject while attempts remain. */
    method OnStaleClose(userId: string, options: Options) returns (notice: Option<Notice>)
      requires Valid()
      modifies this`heartbeatTimer, this`reconnectAttempts, this`reconnectTimer
      ensures Valid()
      ensures heartbeatTimer == None
      ensures notice == Notify(options.onClose, CloseCalled)
      ensures (reconnectAttempts, reconnectTimer) ==
              AfterFailure(old(reconnectAttempts), old(reconnectTimer), userId, options)
    {
      StopHeartbeat();
      notice := Notify(options.onClose, CloseCalled);
      if reconnectAttempts < MaxReconnectAttempts {
        Reconnect(userId, options);
      }
    }

    /** The retry timer fires and calls `connect` with the subject and options it
        was armed with. A socket still in place (the dead one) is closed first,
        which empties the queue. */
    method ReconnectTimerFires(constructionFails: bool) returns (notice: Option<Notice>)
      requires Valid() && reconnectTimer.Some?
      modifies this`ws, this`url, this`options, this`reconnectTimer, this`reconnectAttempts,
               this`heartbeatTimer, this`userId, this`messageQueue
      ensures Valid()
      ensures userId == Some(old(reconnectTimer).value.userId) && options == old(reconnectTimer).value.options
      ensures url == Endpoint(old(reconnectTimer).value.userId)
      ensures heartbeatTimer == None
      ensures messageQueue == if old(ws).Some? then [] else old(messageQueue)
      ensures !constructionFails ==>
                && ws == Some(Socket(Endpoint(old(reconnectTimer).value.userId), Connecting, []))
                && notice == None
                && reconnectAttempts == old(reconnectAttempts)
                && reconnectTimer == None
      ensures constructionFails ==>
                && ws == None
                && notice == Notify(options.onError, ErrorCalled)
                && (reconnectAttempts, reconnectTimer) ==
                   AfterFailure(old(reconnectAttempts), None, old(reconnectTimer).value.userId, options)
    {
      var retry := reconnectTimer.value;
      reconnectTimer := None;
      notice := Connect(retry.userId, retry.options, constructionFails);
    }
  }
}
