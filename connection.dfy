/**
 * The transport layer of the feed handler (cryptofeed/connection.py):
 * connection identity and counters, the open/closed life cycle of the
 * HTTP, polling and WebSocket connections, and the fixed one-minute
 * throttle window of the rate-limited HTTP connection.
 *
 * The real transports (aiohttp sessions, websockets) are replaced by an
 * abstract `Session` value; every answer a transport would give (a
 * response body, its status, an inbound frame, the wall clock) is a
 * parameter. Each transition is a pure function on `ConnState`; the
 * classes update their fields step by step and promise that their new
 * state is the one that function computes.
 */
module Connection {
  import opened Wrappers

  // ---------------------------------------------------------------------
  // Errors, transport answers and the raw-data trace
  // ---------------------------------------------------------------------

  datatype Error =
    | ConnectionClosed                 // cryptofeed.exceptions.ConnectionClosed
    | InvalidAddress(address: string)  // the ValueError of the WebSocket constructor
    | ResponseStatus                   // raise_for_status on a non-2xx HTTP response

  /** What the server answered to one HTTP request: the body and whether the status was 2xx. */
  datatype Response = Response(body: string, ok: bool)

  /** The keyword the raw-data callback receives besides the payload. */
  datatype Context =
    | Endpoint(address: string)  // endpoint=address, an HTTP response
    | Send(address: string)      // send=address, an outbound message
    | Connect(address: string)   // connect=address, before a WebSocket handshake
    | Inbound                    // a WebSocket frame, no keyword

  /** One invocation of the raw-data callback. */
  datatype RawEvent = RawEvent(data: Option<string>, time: real, connId: string, context: Context)

  /** The underlying aiohttp session or websocket; `closed` is its own `closed` flag. */
  datatype Session = Session(serial: nat, closed: bool)

  /**
   * The mutable part of a connection: the transport reference (`conn`),
   * the counters, the time of the last message, and two model-only
   * records: how many sessions were ever created, what the raw-data
   * callback received, and what was handed to the transport to send.
   */
  datatype ConnState = ConnState(
    conn: Option<Session>,
    sent: nat,
    received: nat,
    lastMessage: Option<real>,
    sessions: nat,
    rawTrace: seq<RawEvent>,
    outbox: seq<string>)

  /** The result of a read or write together with the state it leaves. */
  datatype Outcome<T> = Outcome(state: ConnState, result: Result<T, Error>)

  /** The state every connection starts in. */
  function Initial(): ConnState
  {
    ConnState(None, 0, 0, None, 0, [], [])
  }

  /** `is_open`: a transport is held and it has not been closed. */
  predicate IsOpen(s: ConnState)
  {
    s.conn.Some? && !s.conn.value.closed
  }

  /** The raw-data callback is invoked only when one is installed. */
  function Traced(installed: bool, e: RawEvent): seq<RawEvent>
  {
    if installed then [e] else []
  }

  // ---------------------------------------------------------------------
  // Connection identifiers
  // ---------------------------------------------------------------------

  function Digit(d: nat): char
    requires d < 10
  {
    ('0' as int + d) as char
  }

  /** Python's `str(n)` for a non-negative integer. */
  function NatToString(n: nat): (s: string)
    ensures 1 <= |s|
    ensures 10 <= n ==> 2 <= |s|
    ensures n < 10 ==> |s| == 1
    ensures forall i :: 0 <= i < |s| ==> '0' <= s[i] <= '9'
    decreases n
  {
    if n < 10 then [Digit(n)] else NatToString(n / 10) + [Digit(n % 10)]
  }

  lemma {:induction false} NatToStringInjective(a: nat, b: nat)
    requires NatToString(a) == NatToString(b)
    ensures a == b
    decreases a
  {
    var s := NatToString(a);
    if a < 10 && b < 10 {
      assert Digit(a) == s[0] == Digit(b);
    } else if 10 <= a && 10 <= b {
      var n := |s| - 1;
      assert NatToString(a) == NatToString(a / 10) + [Digit(a % 10)];
      assert NatToString(b) == NatToString(b / 10) + [Digit(b % 10)];
      assert Digit(a % 10) == s[n] == Digit(b % 10);
      assert NatToString(a / 10) == s[..n] == NatToString(b / 10);
      NatToStringInjective(a / 10, b / 10);
    }
  }

  /** `f'{conn_id}.http.{n}'`, the identifier of an HTTP connection. */
  function HttpId(connId: string, n: nat): (r: string)
    ensures |connId| + 7 <= |r| && r[..|connId|] == connId && r[|connId|..|connId| + 6] == ".http."
    ensures r[|connId| + 6..] == NatToString(n)
  {
    connId + ".http." + NatToString(n)
  }

  /** `f'{conn_id}.ws.{n}'`, the identifier of a WebSocket connection. */
  function WsId(connId: string, n: nat): (r: string)
    ensures |connId| + 5 <= |r| && r[..|connId|] == connId && r[|connId|..|connId| + 4] == ".ws."
    ensures r[|connId| + 4..] == NatToString(n)
  {
    connId + ".ws." + NatToString(n)
  }

  /** Two HTTP connections built from the same base at different counter values get different ids. */
  lemma HttpIdsDistinct(connId: string, m: nat, n: nat)
    requires m != n
    ensures HttpId(connId, m) != HttpId(connId, n)
  {
    if HttpId(connId, m) == HttpId(connId, n) {
      var k := |connId| + 6;
      assert HttpId(connId, m)[k..] == NatToString(m);
      assert HttpId(connId, n)[k..] == NatToString(n);
      NatToStringInjective(m, n);
    }
  }

  /** Two WebSocket connections built from the same base at different counter values get different ids. */
  lemma WsIdsDistinct(connId: string, m: nat, n: nat)
    requires m != n
    ensures WsId(connId, m) != WsId(connId, n)
  {
    if WsId(connId, m) == WsId(connId, n) {
      var k := |connId| + 4;
      assert WsId(connId, m)[k..] == NatToString(m);
      assert WsId(connId, n)[k..] == NatToString(n);
      NatToStringInjective(m, n);
    }
  }

  /** An HTTP id and a WebSocket id built from the same base never coincide. */
  lemma HttpAndWsIdsDiffer(connId: string, m: nat, n: nat)
    ensures HttpId(connId, m) != WsId(connId, n)
  {
    assert HttpId(connId, m)[|connId| + 1] == 'h';
    assert WsId(connId, n)[|connId| + 1] == 'w';
  }

  predicate StartsWith(s: string, prefix: string)
  {
    |prefix| <= |s| && s[..|prefix|] == prefix
  }

  /** The secure WebSocket scheme (section 3 of RFC 6455). */
  const WssScheme: string := "wss://"

  // ---------------------------------------------------------------------
  // Life-cycle transitions
  // ---------------------------------------------------------------------

  /** `AsyncConnection.close`: drops the transport reference when open, otherwise does nothing. */
  function AfterClose(s: ConnState): (r: ConnState)
    ensures !IsOpen(r)
    ensures !IsOpen(s) ==> r == s
    ensures IsOpen(s) ==> r.conn.None? && r.(conn := s.conn) == s
  {
    if IsOpen(s) then s.(conn := None) else s
  }

  /** `HTTPAsyncConn._open`: a fresh session with zeroed counters, unless one is already open. */
  function AfterHttpOpen(s: ConnState): (r: ConnState)
    ensures IsOpen(r)
    ensures IsOpen(s) ==> r == s
    ensures !IsOpen(s) ==> r.sent == 0 && r.received == 0 && r.sessions == s.sessions + 1
    ensures !IsOpen(s) ==> r.conn == Some(Session(s.sessions, false))
    ensures r.lastMessage == s.lastMessage && r.rawTrace == s.rawTrace && r.outbox == s.outbox
  {
    if IsOpen(s) then s
    else s.(conn := Some(Session(s.sessions, false)), sessions := s.sessions + 1, sent := 0, received := 0)
  }

  /**
   * `HTTPAsyncConn.read`: opens the session if needed, counts the
   * response, records it with the raw-data callback, and only then
   * fails on a non-2xx status.
   */
  function AfterHttpRead(s: ConnState, id: string, rawCallback: bool, address: string, now: real, response: Response): (r: Outcome<string>)
    ensures IsOpen(r.state)
    ensures r.state.received == (if IsOpen(s) then s.received else 0) + 1
    ensures r.state.sent == (if IsOpen(s) then s.sent else 0)
    ensures r.state.lastMessage == Some(now)
    ensures r.state.rawTrace == s.rawTrace + Traced(rawCallback, RawEvent(Some(response.body), now, id, Endpoint(address)))
    ensures r.state.outbox == s.outbox
    ensures r.state.conn == AfterHttpOpen(s).conn && r.state.sessions == AfterHttpOpen(s).sessions
    ensures r.result == if response.ok then Ok(response.body) else Err(ResponseStatus)
  {
    var o := AfterHttpOpen(s);
    var t := o.(received := o.received + 1, lastMessage := Some(now),
                rawTrace := o.rawTrace + Traced(rawCallback, RawEvent(Some(response.body), now, id, Endpoint(address))));
    Outcome(t, if response.ok then Ok(response.body) else Err(ResponseStatus))
  }

  /**
   * `HTTPAsyncConn.write`: opens the session if needed, posts `msg`,
   * counts it as sent, records the response with the raw-data callback,
   * and only then fails on a non-2xx status.
   */
  function AfterHttpWrite(s: ConnState, id: string, rawCallback: bool, address: string, msg: string, now: real, response: Response): (r: Outcome<string>)
    ensures IsOpen(r.state)
    ensures r.state.sent == (if IsOpen(s) then s.sent else 0) + 1
    ensures r.state.received == (if IsOpen(s) then s.received else 0)
    ensures r.state.lastMessage == s.lastMessage
    ensures r.state.outbox == s.outbox + [msg]
    ensures r.state.rawTrace == s.rawTrace + Traced(rawCallback, RawEvent(Some(response.body), now, id, Send(address)))
    ensures r.state.conn == AfterHttpOpen(s).conn && r.state.sessions == AfterHttpOpen(s).sessions
    ensures r.result == if response.ok then Ok(response.body) else Err(ResponseStatus)
  {
    var o := AfterHttpOpen(s);
    var t := o.(sent := o.sent + 1, outbox := o.outbox + [msg],
                rawTrace := o.rawTrace + Traced(rawCallback, RawEvent(Some(response.body), now, id, Send(address))));
    Outcome(t, if response.ok then Ok(response.body) else Err(ResponseStatus))
  }

  /**
   * One item of `HTTPPoll.read` for address `addr`: a closed connection
   * raises ConnectionClosed instead of reopening; otherwise the response
   * is counted and recorded before its status is checked.
   */
  function AfterPoll(s: ConnState, id: string, rawCallback: bool, addr: string, now: real, response: Response): (r: Outcome<string>)
    ensures !IsOpen(s) ==> r == Outcome(s, Err(ConnectionClosed))
    ensures IsOpen(s) ==> IsOpen(r.state) && r.state.received == s.received + 1 && r.state.sent == s.sent
    ensures IsOpen(s) ==> r.state.lastMessage == Some(now)
    ensures IsOpen(s) ==> r.state.conn == s.conn && r.state.sessions == s.sessions && r.state.outbox == s.outbox
    ensures IsOpen(s) ==> r.state.rawTrace == s.rawTrace + Traced(rawCallback, RawEvent(Some(response.body), now, id, Endpoint(addr)))
    ensures IsOpen(s) ==> r.result == if response.ok then Ok(response.body) else Err(ResponseStatus)
  {
    if !IsOpen(s) then Outcome(s, Err(ConnectionClosed))
    else
      var t := s.(received := s.received + 1, lastMessage := Some(now),
                  rawTrace := s.rawTrace + Traced(rawCallback, RawEvent(Some(response.body), now, id, Endpoint(addr))));
      Outcome(t, if response.ok then Ok(response.body) else Err(ResponseStatus))
  }

  /**
   * `WSAsyncConn._open`: connects (announcing it to the raw-data
   * callback) unless already open; the counters are zeroed either way.
   */
  function AfterWsOpen(s: ConnState, id: string, rawCallback: bool, address: string, now: real): (r: ConnState)
    ensures IsOpen(r) && r.sent == 0 && r.received == 0
    ensures IsOpen(s) ==> r == s.(sent := 0, received := 0)
    ensures !IsOpen(s) ==> r.conn == Some(Session(s.sessions, false)) && r.sessions == s.sessions + 1
    ensures !IsOpen(s) ==> r.rawTrace == s.rawTrace + Traced(rawCallback, RawEvent(None, now, id, Connect(address)))
    ensures r.lastMessage == s.lastMessage && r.outbox == s.outbox
  {
    var o := if IsOpen(s) then s
             else s.(rawTrace := s.rawTrace + Traced(rawCallback, RawEvent(None, now, id, Connect(address))),
                     conn := Some(Session(s.sessions, false)), sessions := s.sessions + 1);
    o.(sent := 0, received := 0)
  }

  /** The first item of `WSAsyncConn.read`, the inbound frame being `data`. */
  function AfterWsRead(s: ConnState, id: string, rawCallback: bool, now: real, data: string): (r: Outcome<string>)
    ensures !IsOpen(s) ==> r == Outcome(s, Err(ConnectionClosed))
    ensures IsOpen(s) ==> r.result == Ok(data) && IsOpen(r.state)
    ensures IsOpen(s) ==> r.state.received == s.received + 1 && r.state.sent == s.sent && r.state.lastMessage == Some(now)
    ensures IsOpen(s) ==> r.state.rawTrace == s.rawTrace + Traced(rawCallback, RawEvent(Some(data), now, id, Inbound))
    ensures IsOpen(s) ==> r.state.conn == s.conn && r.state.sessions == s.sessions && r.state.outbox == s.outbox
  {
    if !IsOpen(s) then Outcome(s, Err(ConnectionClosed))
    else
      Outcome(s.(received := s.received + 1, lastMessage := Some(now),
                 rawTrace := s.rawTrace + Traced(rawCallback, RawEvent(Some(data), now, id, Inbound))),
              Ok(data))
  }

  /** `WSAsyncConn.write`: fails when closed; otherwise records, sends `data` and counts it. */
  function AfterWsWrite(s: ConnState, id: string, rawCallback: bool, address: string, now: real, data: string): (r: Outcome<Unit>)
    ensures !IsOpen(s) ==> r == Outcome(s, Err(ConnectionClosed))
    ensures IsOpen(s) ==> r.result == Ok(Unit) && IsOpen(r.state)
    ensures IsOpen(s) ==> r.state.sent == s.sent + 1 && r.state.received == s.received && r.state.outbox == s.outbox + [data]
    ensures IsOpen(s) ==> r.state.rawTrace == s.rawTrace + Traced(rawCallback, RawEvent(Some(data), now, id, Send(address)))
  {
    if !IsOpen(s) then Outcome(s, Err(ConnectionClosed))
    else
      Outcome(s.(rawTrace := s.rawTrace + Traced(rawCallback, RawEvent(Some(data), now, id, Send(address))),
                 outbox := s.outbox + [data], sent := s.sent + 1),
              Ok(Unit))
  }

  /** The state after `frames` were written, one after another, on an open WebSocket connection. */
  function AfterWsWrites(s: ConnState, id: string, rawCallback: bool, address: string, now: real, frames: seq<string>): ConnState
  {
    if frames == [] then s
    else
      var t := AfterWsWrites(s, id, rawCallback, address, now, frames[..|frames| - 1]);
      if IsOpen(t) then AfterWsWrite(t, id, rawCallback, address, now, frames[|frames| - 1]).state else t
  }

  /**
   * Writing frames on an open WebSocket connection keeps it open, sends
   * them in order, counts each, and records each with the raw-data callback.
   */
  lemma {:induction false} WsWritesAppend(s: ConnState, id: string, rawCallback: bool, address: string, now: real, frames: seq<string>)
    requires IsOpen(s)
    ensures var t := AfterWsWrites(s, id, rawCallback, address, now, frames);
      && IsOpen(t) && t.conn == s.conn && t.sessions == s.sessions
      && t.outbox == s.outbox + frames && t.sent == s.sent + |frames|
      && t.received == s.received && t.lastMessage == s.lastMessage
      && |t.rawTrace| == |s.rawTrace| + (if rawCallback then |frames| else 0)
      && (forall i :: 0 <= i < |s.rawTrace| ==> t.rawTrace[i] == s.rawTrace[i])
      && (rawCallback ==> forall i :: 0 <= i < |frames| ==>
            t.rawTrace[|s.rawTrace| + i] == RawEvent(Some(frames[i]), now, id, Send(address)))
  {
    if frames != [] {
      var init := frames[..|frames| - 1];
      WsWritesAppend(s, id, rawCallback, address, now, init);
      assert init + [frames[|frames| - 1]] == frames;
    }
  }

  /** Writing `a` and then `b` is writing `a + b`. */
  lemma {:induction false} WsWritesConcat(s: ConnState, id: string, rawCallback: bool, address: string, now: real, a: seq<string>, b: seq<string>)
    ensures AfterWsWrites(AfterWsWrites(s, id, rawCallback, address, now, a), id, rawCallback, address, now, b)
         == AfterWsWrites(s, id, rawCallback, address, now, a + b)
  {
    if b != [] {
      WsWritesConcat(s, id, rawCallback, address, now, a, b[..|b| - 1]);
      assert (a + b)[..|a + b| - 1] == a + b[..|b| - 1];
    } else {
      assert a + b == a;
    }
  }

  /**
   * The transport closing under the connection (the peer hanging up):
   * the reference stays, but `is_open` turns false.
   */
  function AfterTransportClosed(s: ConnState): (r: ConnState)
    ensures !IsOpen(r)
    ensures r.conn.Some? <==> s.conn.Some?
    ensures r.(conn := s.conn) == s
  {
    if s.conn.Some? then s.(conn := Some(s.conn.value.(closed := true))) else s
  }

  /** A WebSocket whose transport closed under it refuses to read until it is opened again. */
  lemma WsReadAfterTransportClosed(s: ConnState, id: string, rawCallback: bool, now: real, data: string)
    ensures AfterWsRead(AfterTransportClosed(s), id, rawCallback, now, data).result == Err(ConnectionClosed)
  {
  }

  /** Closing twice is closing once, and never leaves the connection open. */
  lemma CloseIdempotent(s: ConnState)
    ensures AfterClose(AfterClose(s)) == AfterClose(s)
    ensures !IsOpen(AfterClose(s))
  {
  }

  /** Opening an HTTP connection twice creates at most one session. */
  lemma HttpOpenIdempotent(s: ConnState)
    ensures AfterHttpOpen(AfterHttpOpen(s)) == AfterHttpOpen(s)
    ensures AfterHttpOpen(s).sessions <= s.sessions + 1
  {
  }

  /** After a close, an HTTP read opens a fresh session whose counters start from zero. */
  lemma HttpReadAfterCloseReopens(s: ConnState, id: string, rawCallback: bool, address: string, now: real, response: Response)
    requires IsOpen(s)
    ensures var r := AfterHttpRead(AfterClose(s), id, rawCallback, address, now, response);
      r.state.received == 1 && r.state.sent == 0 && r.state.sessions == s.sessions + 1
  {
  }

  // ---------------------------------------------------------------------
  // The throttle window
  // ---------------------------------------------------------------------

  /** `throttle_limit`: an integer weight, or the default `float('inf')`. */
  datatype Limit = Finite(n: int) | Infinity

  predicate Reached(used: int, limit: Limit)
  {
    limit.Finite? && used >= limit.n
  }

  /** `used_limit` and `next_reset` (None until the first read). */
  datatype Window = Window(usedLimit: int, nextReset: Option<int>)

  /** The window after a read, and the clock reading after the wait if the read had to wait. */
  datatype ThrottleStep = ThrottleStep(window: Window, wokeAt: Option<real>)

  /** A non-negative amount of time. */
  type Seconds = r: real | 0.0 <= r

  /** Python's `int()` of a float: truncation toward zero. */
  function Trunc(x: real): (t: int)
    ensures 0.0 <= x ==> t as real <= x < t as real + 1.0
    ensures x < 0.0 ==> x <= t as real < x + 1.0
  {
    if 0.0 <= x then x.Floor else -((-x).Floor)
  }

  /** `(int(now) // 60 + 1) * 60`: the next whole minute after `now`. */
  function NextReset(now: real): (r: int)
    ensures r % 60 == 0
    ensures now < r as real
    ensures 0.0 <= now ==> r as real <= now + 60.0
  {
    var t := Trunc(now);
    assert t / 60 * 60 <= t < t / 60 * 60 + 60;
    (t / 60 + 1) * 60
  }

  /** `not self.next_reset`: no boundary yet (None, or Python-falsy 0). */
  predicate Unset(w: Window)
  {
    w.nextReset.None? || w.nextReset.value == 0
  }

  /** Every boundary the window has held is a whole minute. */
  predicate MinuteAligned(w: Window)
  {
    w.nextReset.None? || w.nextReset.value % 60 == 0
  }

  /** The boundary after `read` has set a missing one (lines 161-162). */
  function SetBoundary(w: Window, now: real): int
  {
    if Unset(w) then NextReset(now) else w.nextReset.value
  }

  /** The boundary in force once `read` has set or renewed it (lines 161-167). */
  function Boundary(w: Window, now: real): int
  {
    if (SetBoundary(w, now) as real) < now then NextReset(now) else SetBoundary(w, now)
  }

  /** The weight charged to the window before the limit test (lines 159-167). */
  function Accumulated(w: Window, weight: int, now: real): int
  {
    if (SetBoundary(w, now) as real) < now then weight else w.usedLimit + weight
  }

  /**
   * The window arithmetic of `ThrottledHTTPAsyncConn.read` for a call of
   * `weight` at time `now`. When the limit is reached the call sleeps
   * until the boundary; the clock then reads the boundary plus `slack`.
   */
  function Throttle(w: Window, limit: Limit, weight: int, now: real, slack: Seconds): (r: ThrottleStep)
    ensures r.window.nextReset.Some?
    ensures r.wokeAt.Some? <==> Reached(Accumulated(w, weight, now), limit)
    ensures r.wokeAt.None? ==> r.window == Window(Accumulated(w, weight, now), Some(Boundary(w, now)))
    ensures r.wokeAt.None? ==> !Reached(r.window.usedLimit, limit) && now <= r.window.nextReset.value as real
    ensures r.wokeAt.Some? ==> r.window.usedLimit == weight
    ensures r.wokeAt.Some? ==> Boundary(w, now) as real <= r.wokeAt.value && now <= r.wokeAt.value
    ensures r.wokeAt.Some? ==> r.wokeAt.value < r.window.nextReset.value as real && r.window.nextReset.value % 60 == 0
    ensures r.wokeAt.Some? ==> r.window.nextReset == Some(NextReset(r.wokeAt.value))
    ensures limit.Infinity? ==> r.wokeAt.None?
    ensures MinuteAligned(w) ==> MinuteAligned(r.window)
  {
    var used := Accumulated(w, weight, now);
    if Reached(used, limit) then
      var wake := Boundary(w, now) as real + slack;
      ThrottleStep(Window(weight, Some(NextReset(wake))), Some(wake))
    else
      ThrottleStep(Window(used, Some(Boundary(w, now))), None)
  }

  /** A window whose boundary has passed restarts with this call's weight only. */
  lemma ExpiredWindowRestarts(w: Window, limit: Limit, weight: int, now: real, slack: Seconds)
    requires !Unset(w) && (w.nextReset.value as real) < now
    requires !Reached(weight, limit)
    ensures Throttle(w, limit, weight, now, slack) == ThrottleStep(Window(weight, Some(NextReset(now))), None)
  {
  }

  /** At the boundary instant itself nothing is reset: the weight keeps accumulating. */
  lemma BoundaryInstantAccumulates(w: Window, limit: Limit, weight: int, now: real, slack: Seconds)
    requires !Unset(w) && now == w.nextReset.value as real
    requires !Reached(w.usedLimit + weight, limit)
    ensures Throttle(w, limit, weight, now, slack) == ThrottleStep(Window(w.usedLimit + weight, w.nextReset), None)
  {
  }

  /** One read of a sequence of throttled reads. */
  datatype Call = Call(weight: int, now: real, slack: Seconds)

  function Weights(calls: seq<Call>): int
  {
    if calls == [] then 0 else Weights(calls[..|calls| - 1]) + calls[|calls| - 1].weight
  }

  /** The window after `calls`, one after another, and how many of them waited. */
  function ThrottleRun(w: Window, limit: Limit, calls: seq<Call>): (Window, nat)
  {
    if calls == [] then (w, 0)
    else
      var (v, waits) := ThrottleRun(w, limit, calls[..|calls| - 1]);
      var c := calls[|calls| - 1];
      var s := Throttle(v, limit, c.weight, c.now, c.slack);
      (s.window, waits + if s.wokeAt.Some? then 1 else 0)
  }

  /**
   * Within one minute bucket (every call at or before its boundary `b`),
   * reads that were all admitted without waiting charged their weights
   * to the same bucket, and their total stayed below the limit.
   */
  lemma {:induction false} MinuteBudget(w: Window, limit: Limit, calls: seq<Call>)
    requires !Unset(w)
    requires forall i :: 0 <= i < |calls| ==> calls[i].now <= w.nextReset.value as real
    requires ThrottleRun(w, limit, calls).1 == 0
    ensures ThrottleRun(w, limit, calls).0 == Window(w.usedLimit + Weights(calls), w.nextReset)
    ensures calls != [] ==> !Reached(w.usedLimit + Weights(calls), limit)
  {
    if calls != [] {
      var init := calls[..|calls| - 1];
      assert forall i :: 0 <= i < |init| ==> init[i] == calls[i];
      MinuteBudget(w, limit, init);
    }
  }

  /** Limit 10, weights 4, 4, 4 within one minute: the third read waits and leaves a used weight of 4. */
  lemma ThirdReadOfFourWaits()
    ensures var s1 := Throttle(Window(0, None), Finite(10), 4, 61.0, 0.0);
      var s2 := Throttle(s1.window, Finite(10), 4, 62.0, 0.0);
      var s3 := Throttle(s2.window, Finite(10), 4, 63.0, 0.0);
      s1.wokeAt.None? && s2.wokeAt.None? && s2.window == Window(8, Some(120))
      && s3.wokeAt == Some(120.0) && s3.window == Window(4, Some(180))
  {
    assert Trunc(61.0) == 61 && Trunc(62.0) == 62 && Trunc(120.0) == 120;
  }

  // ---------------------------------------------------------------------
  // The connection classes
  // ---------------------------------------------------------------------

  /** The class-wide `AsyncConnection.conn_count`, shared by every connection kind. */
  class Registry {
    var connCount: nat

    constructor ()
      ensures connCount == 0
    {
      connCount := 0;
    }
  }

  /** `AsyncConnection`: identity, counters, transport reference and close. */
  class AsyncConnection {
    const id: string
    const rawCallback: bool
    var conn: Option<Session>
    var sent: nat
    var received: nat
    var lastMessage: Option<real>
    var sessions: nat
    var rawTrace: seq<RawEvent>
    var outbox: seq<string>

    function State(): ConnState
      reads this
    {
      ConnState(conn, sent, received, lastMessage, sessions, rawTrace, outbox)
    }

    predicate IsOpenNow()
      reads this
    {
      IsOpen(State())
    }

    /** `AsyncConnection.__init__`: bumps the shared counter and starts closed with zero counters. */
    constructor (connId: string, registry: Registry, rawCallback: bool)
      modifies registry
      ensures registry.connCount == old(registry.connCount) + 1
      ensures id == connId && this.rawCallback == rawCallback
      ensures State() == Initial()
    {
      id := connId;
      this.rawCallback := rawCallback;
      conn := None;
      sent, received := 0, 0;
      lastMessage := None;
      sessions := 0;
      rawTrace, outbox := [], [];
      new;
      registry.connCount := registry.connCount + 1;
    }

    /** The environment closing the transport; not a method of the connection. */
    method TransportClosed()
      modifies this
      ensures State() == AfterTransportClosed(old(State()))
    {
      if conn.Some? {
        conn := Some(conn.value.(closed := true));
      }
    }

    /** `AsyncConnection.close`. */
    method Close()
      modifies this
      ensures State() == AfterClose(old(State()))
    {
      if IsOpenNow() {
        conn := None;
      }
    }
  }

  /** `HTTPAsyncConn`. */
  class HTTPAsyncConn {
    const base: AsyncConnection

    constructor (connId: string, registry: Registry, rawCallback: bool)
      modifies registry
      ensures fresh(base)
      ensures base.id == HttpId(connId, old(registry.connCount)) && base.rawCallback == rawCallback
      ensures base.State() == Initial()
      ensures registry.connCount == old(registry.connCount) + 1
    {
      base := new AsyncConnection(HttpId(connId, registry.connCount), registry, rawCallback);
    }

    /** `HTTPAsyncConn._open`. */
    method Open()
      modifies base
      ensures base.State() == AfterHttpOpen(old(base.State()))
    {
      if !base.IsOpenNow() {
        base.conn := Some(Session(base.sessions, false));
        base.sessions := base.sessions + 1;
        base.sent := 0;
        base.received := 0;
      }
    }

    /** `HTTPAsyncConn.read` of `address` at time `now`, the server answering `response`. */
    method Read(address: string, now: real, response: Response) returns (r: Result<string, Error>)
      modifies base
      ensures Outcome(base.State(), r) == AfterHttpRead(old(base.State()), base.id, base.rawCallback, address, now, response)
    {
      if !base.IsOpenNow() {
        Open();
      }
      base.lastMessage := Some(now);
      base.received := base.received + 1;
      if base.rawCallback {
        base.rawTrace := base.rawTrace + [RawEvent(Some(response.body), now, base.id, Endpoint(address))];
      }
      if !response.ok {
        return Err(ResponseStatus);
      }
      r := Ok(response.body);
    }

    /** `HTTPAsyncConn.write` of `msg` to `address`, the server answering `response`. */
    method Write(address: string, msg: string, now: real, response: Response) returns (r: Result<string, Error>)
      modifies base
      ensures Outcome(base.State(), r) == AfterHttpWrite(old(base.State()), base.id, base.rawCallback, address, msg, now, response)
    {
      if !base.IsOpenNow() {
        Open();
      }
      base.outbox := base.outbox + [msg];
      base.sent := base.sent + 1;
      if base.rawCallback {
        base.rawTrace := base.rawTrace + [RawEvent(Some(response.body), now, base.id, Send(address))];
      }
      if !response.ok {
        return Err(ResponseStatus);
      }
      r := Ok(response.body);
    }
  }

  /** `ThrottledHTTPAsyncConn`: an HTTP connection whose reads pass a fixed one-minute weight window. */
  class ThrottledHTTPAsyncConn {
    const http: HTTPAsyncConn
    const throttleLimit: Limit
    const throttleInterval: real  // accepted and kept, but never consulted
    var usedLimit: int
    var nextReset: Option<int>

    function CurrentWindow(): Window
      reads this
    {
      Window(usedLimit, nextReset)
    }

    constructor (connId: string, registry: Registry, rawCallback: bool, throttleLimit: Limit, throttleInterval: real)
      modifies registry
      ensures fresh(http) && fresh(http.base)
      ensures http.base.id == HttpId(connId, old(registry.connCount)) && http.base.rawCallback == rawCallback
      ensures http.base.State() == Initial()
      ensures registry.connCount == old(registry.connCount) + 1
      ensures this.throttleLimit == throttleLimit && this.throttleInterval == throttleInterval
      ensures CurrentWindow() == Window(0, None)
    {
      http := new HTTPAsyncConn(connId, registry, rawCallback);
      this.throttleLimit := throttleLimit;
      this.throttleInterval := throttleInterval;
      usedLimit := 0;
      nextReset := None;
    }

    /**
     * `ThrottledHTTPAsyncConn.read`: charges `weight` to the window,
     * sleeps until the boundary when the limit is reached (waking
     * `slack` after it), and then reads through the HTTP connection.
     */
    method Read(address: string, weight: int, now: real, slack: Seconds, response: Response)
      returns (r: Result<string, Error>, wokeAt: Option<real>)
      modifies this, http.base
      ensures ThrottleStep(CurrentWindow(), wokeAt) == Throttle(old(CurrentWindow()), throttleLimit, weight, now, slack)
      ensures Outcome(http.base.State(), r)
           == AfterHttpRead(old(http.base.State()), http.base.id, http.base.rawCallback, address,
                            if wokeAt.Some? then wokeAt.value else now, response)
    {
      usedLimit := usedLimit + weight;
      if nextReset.None? || nextReset.value == 0 {
        nextReset := Some(NextReset(now));
      }
      if (nextReset.value as real) < now {
        nextReset := Some(NextReset(now));
        usedLimit := weight;
      }
      var clock := now;
      wokeAt := None;
      if Reached(usedLimit, throttleLimit) {
        clock := nextReset.value as real + slack;  // asyncio.sleep(next_reset - time.time())
        wokeAt := Some(clock);
        nextReset := Some(NextReset(clock));
        usedLimit := weight;
      }
      r := http.Read(address, clock, response);
    }
  }

  /** `address: Union[List, str]` of the polling constructor. */
  datatype AddressArg = Single(address: string) | Many(addresses: seq<string>)

  function AddressList(a: AddressArg): seq<string>
  {
    match a
    case Single(x) => [x]
    case Many(xs) => xs
  }

  /** `HTTPPoll`: repeated GETs over a list of addresses. */
  class HTTPPoll {
    const http: HTTPAsyncConn
    const address: seq<string>
    const delay: real
    const sleep: real

    /** The id carries the `.http.{n}` suffix twice: once here and once in `HTTPAsyncConn.__init__`. */
    constructor (address: AddressArg, connId: string, registry: Registry, rawCallback: bool, delay: real, sleep: real)
      modifies registry
      ensures fresh(http) && fresh(http.base)
      ensures http.base.id == HttpId(HttpId(connId, old(registry.connCount)), old(registry.connCount))
      ensures http.base.rawCallback == rawCallback && http.base.State() == Initial()
      ensures registry.connCount == old(registry.connCount) + 1
      ensures this.address == AddressList(address) && this.delay == delay && this.sleep == sleep
    {
      http := new HTTPAsyncConn(HttpId(connId, registry.connCount), registry, rawCallback);
      this.address := AddressList(address);
      this.delay := delay;
      this.sleep := sleep;
    }

    /** The item of `HTTPPoll.read` that polls the `k`-th address of the cycle. */
    method Read(k: nat, now: real, response: Response) returns (r: Result<string, Error>)
      requires k < |address|
      modifies http.base
      ensures Outcome(http.base.State(), r)
           == AfterPoll(old(http.base.State()), http.base.id, http.base.rawCallback, address[k], now, response)
    {
      if !http.base.IsOpenNow() {
        return Err(ConnectionClosed);
      }
      http.base.received := http.base.received + 1;
      http.base.lastMessage := Some(now);
      if http.base.rawCallback {
        http.base.rawTrace := http.base.rawTrace + [RawEvent(Some(response.body), now, http.base.id, Endpoint(address[k]))];
      }
      if !response.ok {
        return Err(ResponseStatus);
      }
      r := Ok(response.body);
    }
  }

  /** `WSAsyncConn`: a WebSocket connection to a `wss://` address. */
  class WSAsyncConn {
    const address: string
    const base: AsyncConnection

    constructor (address: string, connId: string, registry: Registry, rawCallback: bool)
      requires StartsWith(address, WssScheme)
      modifies registry
      ensures fresh(base) && this.address == address
      ensures base.id == WsId(connId, old(registry.connCount)) && base.rawCallback == rawCallback
      ensures base.State() == Initial()
      ensures registry.connCount == old(registry.connCount) + 1
    {
      this.address := address;
      base := new AsyncConnection(WsId(connId, registry.connCount), registry, rawCallback);
    }

    /** `WSAsyncConn.__init__`, including its ValueError for an address that is not `wss://`. */
    static method Create(address: string, connId: string, registry: Registry, rawCallback: bool)
      returns (r: Result<WSAsyncConn, Error>)
      modifies registry
      ensures !StartsWith(address, WssScheme) ==> r == Err(InvalidAddress(address)) && registry.connCount == old(registry.connCount)
      ensures StartsWith(address, WssScheme) ==> r.Ok? && fresh(r.value) && fresh(r.value.base)
      ensures StartsWith(address, WssScheme) ==> r.value.address == address && r.value.base.id == WsId(connId, old(registry.connCount))
      ensures StartsWith(address, WssScheme) ==> r.value.base.rawCallback == rawCallback && r.value.base.State() == Initial()
      ensures StartsWith(address, WssScheme) ==> registry.connCount == old(registry.connCount) + 1
    {
      if !StartsWith(address, WssScheme) {
        return Err(InvalidAddress(address));
      }
      var c := new WSAsyncConn(address, connId, registry, rawCallback);
      r := Ok(c);
    }

    /** `WSAsyncConn._open`. */
    method Open(now: real)
      modifies base
      ensures base.State() == AfterWsOpen(old(base.State()), base.id, base.rawCallback, address, now)
    {
      if !base.IsOpenNow() {
        if base.rawCallback {
          base.rawTrace := base.rawTrace + [RawEvent(None, now, base.id, Connect(address))];
        }
        base.conn := Some(Session(base.sessions, false));
        base.sessions := base.sessions + 1;
      }
      base.sent := 0;
      base.received := 0;
    }

    /** The first item of `WSAsyncConn.read`, the socket delivering `data`. */
    method Read(now: real, data: string) returns (r: Result<string, Error>)
      modifies base
      ensures Outcome(base.State(), r) == AfterWsRead(old(base.State()), base.id, base.rawCallback, now, data)
    {
      if !base.IsOpenNow() {
        return Err(ConnectionClosed);
      }
      base.received := base.received + 1;
      base.lastMessage := Some(now);
      if base.rawCallback {
        base.rawTrace := base.rawTrace + [RawEvent(Some(data), now, base.id, Inbound)];
      }
      r := Ok(data);
    }

    /** `WSAsyncConn.write`. */
    method Write(data: string, now: real) returns (r: Result<Unit, Error>)
      modifies base
      ensures Outcome(base.State(), r) == AfterWsWrite(old(base.State()), base.id, base.rawCallback, address, now, data)
    {
      if !base.IsOpenNow() {
        return Err(ConnectionClosed);
      }
      if base.rawCallback {
        base.rawTrace := base.rawTrace + [RawEvent(Some(data), now, base.id, Send(address))];
      }
      base.outbox := base.outbox + [data];
      base.sent := base.sent + 1;
      r := Ok(Unit);
    }
  }
}
