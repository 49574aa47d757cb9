/**
 * The browser's realtime channel to the prediction service
 * (frontend/contexts/WebSocketContext.tsx): one WebSocket, a reconnect policy with
 * capped exponential backoff, a connection timeout, and a single message handler.
 * Browser events and timer expiries are the methods of `RealtimeChannel`; the
 * order in which they arrive is chosen by the caller.
 */
module Channel {
  import opened Wrappers
  import opened Wire

  const InitialReconnectDelay: real := 1000.0
  const MaxReconnectDelay: real := 30000.0
  const BackoffMultiplier: real := 1.5

  /** WebSocket close codes that mean "closed on purpose": normal closure and going away. */
  const NormalClosure: int := 1000
  const GoingAway: int := 1001

  const TimeoutError: string := "Connection timeout. Please check your internet connection."
  const ConnectError: string := "Failed to connect to the server. Please try again."

  /** `Math.pow(b, n)` for a whole exponent, computed exactly. */
  function Pow(b: real, n: nat): (p: real)
  {
    if n == 0 then 1.0 else b * Pow(b, n - 1)
  }

  lemma {:induction false} PowAtLeastOne(n: nat)
    ensures Pow(BackoffMultiplier, n) >= 1.0
  {
    if n > 0 {
      PowAtLeastOne(n - 1);
    }
  }

  lemma {:induction false} PowMonotone(m: nat, n: nat)
    requires m <= n
    ensures Pow(BackoffMultiplier, m) <= Pow(BackoffMultiplier, n)
  {
    if m < n {
      PowMonotone(m, n - 1);
      PowAtLeastOne(n - 1);
    }
  }

  /** `calculateReconnectDelay`: `min(1000 * 1.5^attempts, 30000)` milliseconds. */
  function ReconnectDelay(attempts: nat): (d: real)
    ensures InitialReconnectDelay <= d <= MaxReconnectDelay
  {
    PowAtLeastOne(attempts);
    var delay := InitialReconnectDelay * Pow(BackoffMultiplier, attempts);
    if delay <= MaxReconnectDelay then delay else MaxReconnectDelay
  }

  /** More failed attempts never shorten the wait. */
  lemma DelayMonotone(m: nat, n: nat)
    requires m <= n
    ensures ReconnectDelay(m) <= ReconnectDelay(n)
  {
    PowMonotone(m, n);
  }

  /**
   * The schedule in full: 1000 ms after the first failure, growing by 1.5 per further
   * failure up to the eighth retry (25 628.9 ms), and the 30 000 ms cap from the ninth on.
   */
  lemma DelaySchedule(n: nat)
    ensures n <= 8 ==> ReconnectDelay(n) == InitialReconnectDelay * Pow(BackoffMultiplier, n) < MaxReconnectDelay
    ensures n >= 9 ==> ReconnectDelay(n) == MaxReconnectDelay
    ensures ReconnectDelay(0) == InitialReconnectDelay
  {
    assert Pow(BackoffMultiplier, 8) == 25.62890625;
    assert Pow(BackoffMultiplier, 9) == 38.443359375;
    if n <= 8 {
      PowMonotone(n, 8);
    } else {
      PowMonotone(9, n);
    }
  }

  /**
   * The last `attempts` entries of a log of scheduled delays are the backoff of that many
   * consecutive failed attempts: the i-th of them waited `ReconnectDelay(i)`.
   */
  ghost predicate BackoffLog(log: seq<real>, attempts: nat)
  {
    attempts <= |log| && forall i :: 0 <= i < attempts ==> log[|log| - attempts + i] == ReconnectDelay(i)
  }

  /**
   * Since the last successful open, the scheduled waits start at 1000 ms and never shrink.
   */
  lemma BackoffLogNonDecreasing(log: seq<real>, attempts: nat)
    requires BackoffLog(log, attempts)
    ensures attempts > 0 ==> log[|log| - attempts] == InitialReconnectDelay
    ensures var run := log[|log| - attempts..];
      forall i, j :: 0 <= i <= j < |run| ==> run[i] <= run[j]
  {
    var run := log[|log| - attempts..];
    forall i, j | 0 <= i <= j < |run|
      ensures run[i] <= run[j]
    {
      assert run[i] == ReconnectDelay(i) && run[j] == ReconnectDelay(j);
      DelayMonotone(i, j);
    }
    if attempts > 0 {
      assert log[|log| - attempts + 0] == ReconnectDelay(0);
      DelaySchedule(0);
    }
  }

  /** The readiness of the socket `wsRef` points at; `NoSocket` once its close event has run. */
  datatype SocketState = NoSocket | Connecting | Open | Closing

  /** A parsed message handed to the registered handler. */
  datatype Delivery = Delivery(handler: nat, data: Inbound)

  /**
   * `WebSocketProvider`'s refs and state. Handlers are named by a number: the most recent
   * `setMessageHandler` argument is the only one that receives messages.
   */
  class RealtimeChannel {
    var socket: SocketState
    var connected: bool
    var error: Option<string>
    var attempts: nat
    /** The pending reconnect timer, with the delay it was scheduled with. */
    var reconnectTimer: Option<real>
    /** Whether the current socket's connection timeout is still pending. */
    var connectTimer: bool
    var handler: Option<nat>
    /** Every payload handed to `WebSocket.send`, oldest first. */
    var sent: seq<Outbound>
    /** Every reconnect delay scheduled so far, oldest first. */
    ghost var delays: seq<real>

    /**
     * At most one reconnect timer is pending, only while there is no socket, and its delay
     * is the backoff for the attempt count before the increment; the last `attempts` delays
     * logged are the backoff schedule since the last successful open; the connection timeout
     * is pending only for a socket that has not opened; without a socket nothing is connected.
     */
    ghost predicate Valid()
      reads this
    {
      && (reconnectTimer.Some? ==>
            socket == NoSocket && attempts >= 1 && |delays| >= 1
            && reconnectTimer.value == delays[|delays| - 1] == ReconnectDelay(attempts - 1))
      && (connectTimer ==> socket == Connecting || socket == Closing)
      && (socket == NoSocket ==> !connected)
      && BackoffLog(delays, attempts)
      && (forall i :: 0 <= i < |delays| ==> InitialReconnectDelay <= delays[i] <= MaxReconnectDelay)
    }

    constructor ()
      ensures Valid()
      ensures socket == NoSocket && !connected && error.None? && attempts == 0
      ensures reconnectTimer.None? && !connectTimer && handler.None? && sent == [] && delays == []
    {
      socket := NoSocket;
      connected := false;
      error := None;
      attempts := 0;
      reconnectTimer := None;
      connectTimer := false;
      handler := None;
      sent := [];
      delays := [];
    }

    /**
     * `connectWebSocket`: nothing if the socket is already open; otherwise cancel the
     * pending reconnect timer, create a new socket and arm its connection timeout.
     */
    method Connect()
      requires Valid()
      modifies this
      ensures Valid()
      ensures old(socket) == Open ==> unchanged(this)
      ensures old(socket) != Open ==> socket == Connecting && connectTimer && reconnectTimer.None?
      ensures connected == old(connected) && error == old(error) && attempts == old(attempts)
      ensures handler == old(handler) && sent == old(sent) && delays == old(delays)
    {
      if socket == Open {
        return;
      }
      reconnectTimer := None;
      socket := Connecting;
      connectTimer := true;
    }

    /** `onopen`: cancel the timeout, mark connected, clear the error, reset the attempt count. */
    method OnOpen()
      requires Valid()
      modifies this
      ensures Valid()
      ensures old(socket) != Connecting ==> unchanged(this)
      ensures old(socket) == Connecting ==>
        && socket == Open && connected && error.None? && attempts == 0 && !connectTimer
        && reconnectTimer == old(reconnectTimer) && handler == old(handler)
        && sent == old(sent) && delays == old(delays)
    {
      if socket == Connecting {
        socket := Open;
        connectTimer := false;
        connected := true;
        error := None;
        attempts := 0;
      }
    }

    /** `onerror`: record the failure and mark disconnected; the close event follows separately. */
    method OnError()
      requires Valid()
      modifies this
      ensures Valid()
      ensures old(socket) == NoSocket ==> unchanged(this)
      ensures old(socket) != NoSocket ==> !connected && error == Some(ConnectError)
      ensures socket == old(socket) && attempts == old(attempts) && reconnectTimer == old(reconnectTimer)
      ensures connectTimer == old(connectTimer) && handler == old(handler) && sent == old(sent)
      ensures delays == old(delays)
    {
      if socket != NoSocket {
        error := Some(ConnectError);
        connected := false;
      }
    }

    /**
     * `onclose`: mark disconnected, drop the socket, cancel the timeout; unless the code is
     * 1000 or 1001, schedule one reconnect with the delay for the current attempt count and
     * only then count the attempt.
     */
    method OnClose(code: int)
      requires Valid()
      modifies this
      ensures Valid()
      ensures old(socket) == NoSocket ==> unchanged(this)
      ensures old(socket) != NoSocket ==> socket == NoSocket && !connected && !connectTimer
      ensures old(socket) != NoSocket && (code == NormalClosure || code == GoingAway) ==>
        attempts == old(attempts) && reconnectTimer.None? && delays == old(delays)
      ensures old(socket) != NoSocket && code != NormalClosure && code != GoingAway ==>
        && attempts == old(attempts) + 1
        && reconnectTimer == Some(ReconnectDelay(old(attempts)))
        && delays == old(delays) + [ReconnectDelay(old(attempts))]
      ensures error == old(error) && handler == old(handler) && sent == old(sent)
    {
      if socket != NoSocket {
        connected := false;
        socket := NoSocket;
        connectTimer := false;
        if code != NormalClosure && code != GoingAway {
          var delay := ReconnectDelay(attempts);
          attempts := attempts + 1;
          reconnectTimer := Some(delay);
          delays := delays + [delay];
        }
      }
    }

    /** The reconnect timer expires: it is no longer pending and `connectWebSocket` runs. */
    method TimerFires()
      requires Valid()
      modifies this
      ensures Valid()
      ensures old(reconnectTimer).None? ==> unchanged(this)
      ensures old(reconnectTimer).Some? ==> socket == Connecting && connectTimer && reconnectTimer.None?
      ensures connected == old(connected) && error == old(error) && attempts == old(attempts)
      ensures handler == old(handler) && sent == old(sent) && delays == old(delays)
    {
      if reconnectTimer.Some? {
        reconnectTimer := None;
        Connect();
      }
    }

    /**
     * The connection timeout expires: a socket that has not opened is closed and the
     * timeout error is recorded. The close event follows separately.
     */
    method ConnectTimeoutFires()
      requires Valid()
      modifies this
      ensures Valid()
      ensures !old(connectTimer) ==> unchanged(this)
      ensures old(connectTimer) ==> !connectTimer && socket == Closing && error == Some(TimeoutError)
      ensures connected == old(connected) && attempts == old(attempts) && reconnectTimer == old(reconnectTimer)
      ensures handler == old(handler) && sent == old(sent) && delays == old(delays)
    {
      if connectTimer {
        connectTimer := false;
        if socket != Open {
          if socket == Connecting {
            socket := Closing;
          }
          error := Some(TimeoutError);
        }
      }
    }

    /**
     * The provider's cleanup: cancel the pending reconnect timer and close the socket with
     * code 1000, dropping the reference to it.
     */
    method Unmount()
      requires Valid()
      modifies this
      ensures Valid()
      ensures reconnectTimer.None?
      ensures socket == if old(socket) == NoSocket then NoSocket else Closing
      ensures connected == old(connected) && error == old(error) && attempts == old(attempts)
      ensures connectTimer == old(connectTimer) && handler == old(handler) && sent == old(sent)
      ensures delays == old(delays)
    {
      reconnectTimer := None;
      if socket != NoSocket {
        socket := Closing;
      }
    }

    /** `sendMessage`: transmit only on an open socket; otherwise drop the payload silently. */
    method Send(payload: Outbound) returns (transmitted: bool)
      modifies this`sent
      ensures transmitted <==> socket == Open
      ensures sent == if transmitted then old(sent) + [payload] else old(sent)
    {
      transmitted := socket == Open;
      if transmitted {
        sent := sent + [payload];
      }
    }

    /** `setMessageHandler`: the new handler replaces the previous one. */
    method SetMessageHandler(h: nat)
      modifies this`handler
      ensures handler == Some(h)
    {
      handler := Some(h);
    }

    /**
     * `onmessage`: a payload that parsed is handed to the registered handler, if any;
     * a payload that failed to parse (`None`) is dropped. No state changes either way.
     */
    method OnMessage(parsed: Option<Inbound>) returns (d: Option<Delivery>)
      ensures d.Some? <==> (socket == Open || socket == Closing) && parsed.Some? && handler.Some?
      ensures d.Some? ==> d.value.handler == handler.value && d.value.data == parsed.value
    {
      if (socket == Open || socket == Closing) && parsed.Some? && handler.Some? {
        d := Some(Delivery(handler.value, parsed.value));
      } else {
        d := None;
      }
    }
  }

  /** After a successful open, the first abnormal close schedules a reconnect in exactly 1000 ms. */
  method FirstReconnectAfterOpen(c: RealtimeChannel, code: int)
    requires c.Valid() && c.socket == Connecting
    requires code != NormalClosure && code != GoingAway
    modifies c
    ensures c.Valid() && c.reconnectTimer == Some(InitialReconnectDelay) && c.attempts == 1
  {
    c.OnOpen();
    c.OnClose(code);
    DelaySchedule(0);
  }

  /** After the provider unmounts, the close it requested (code 1000) schedules nothing. */
  method UnmountThenClose(c: RealtimeChannel)
    requires c.Valid()
    modifies c
    ensures c.Valid() && c.reconnectTimer.None? && c.socket == NoSocket && !c.connected
    ensures c.attempts == old(c.attempts)
  {
    c.Unmount();
    c.OnClose(NormalClosure);
  }
}
