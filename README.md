# cryptofeed: HitBTC adapter and connection layer, modelled in Dafny

This project models the sequential core of two files of cryptofeed, a
multi-exchange market-data feed handler.

- `hitbtc.dfy` (module `HitBTC`) models the HitBTC exchange adapter:
  - the symbol table built from the exchange's symbol list;
  - the per-symbol sequence guard, which raises `MissingSequenceNumber` on a gap before any handler runs;
  - the level-2 order-book replica, replaced wholesale by a snapshot and changed level by level by an incremental update that reports the entries it applied;
  - trades and tickers;
  - frame dispatch on `method`, then `channel`, then the result/error envelope;
  - the subscription requests written on a WebSocket connection.
- `connection.dfy` (module `Connection`) models the transport layer:
  - connection ids derived from the shared `conn_count`;
  - the open/closed life cycle and the `sent`/`received`/`last_message` counters of the HTTP, polling and WebSocket connections;
  - HTTP auto-open versus the `ConnectionClosed` errors of polling and WebSocket connections;
  - the raw-data callback, which records a response before its status is checked;
  - the fixed one-minute throttle window of `ThrottledHTTPAsyncConn`.
- `wrappers.dfy` (module `Wrappers`) holds `Option` and `Result`.

Every state change of the source is a method of a class with the source's
fields (`seq_no`, `l2_book`, `used_limit`, `next_reset`, `conn`, `sent`,
`received`, ...). Each method's `ensures` ties the new state to a pure
function of the old state (`AfterHttpRead`, `Throttle`, `UpdatedBook`,
...). The properties are proved as lemmas about those functions.

Modelling choices:

- Python's inheritance becomes composition. `HTTPAsyncConn` and `WSAsyncConn` hold the `AsyncConnection` fields as `base`. `ThrottledHTTPAsyncConn` and `HTTPPoll` hold an `HTTPAsyncConn` as `http`.
- The class attribute `AsyncConnection.conn_count` is a `Registry` object. Every constructor receives it.
- The transport is a `Session` value with a `closed` flag. A model-only `outbox` records what was handed to the transport to send. A `sessions` counter records how many sessions were created.
- The raw-data callback is a per-connection flag (`rawCallback`). Its invocations are appended to `rawTrace`.
- The clock, HTTP responses (body and 2xx or not) and inbound WebSocket frames are parameters. `asyncio.sleep` until the boundary is a clock that wakes at `next_reset + slack`, with `slack >= 0`.
- `Decimal` prices and sizes are `real`. The symbol mapping of the feed base class and `timestamp_normalize` of `cryptofeed.standards` are opaque functions given to the `HitBTCFeed` constructor. Callbacks append to `events`.

Behaviour of the code worth noting:

- A snapshot stores size-0 entries as given. Only incremental updates keep "no level of size 0" (`ApplyLevelsKeepsNoEmptyLevels`).
- `conn_count` is one counter shared by all connection kinds.
- `WSAsyncConn._open` zeroes `sent` and `received` even when the socket is already open.
- The `HTTPPoll` id carries the `.http.{n}` suffix twice.

## Model

| member | source | states |
|---|---|---|
| Connection.NatToString | cryptofeed/connection.py:102 | Python's `str(n)`: at least one character, all decimal digits, exactly one for `n < 10` and at least two otherwise |
| Connection.HttpId | cryptofeed/connection.py:102 | the HTTP id is `conn_id`, then `.http.`, then the decimal counter |
| Connection.WsId | cryptofeed/connection.py:223 | the WebSocket id is `conn_id`, then `.ws.`, then the decimal counter |
| Connection.NatToStringInjective | cryptofeed/connection.py:102 | the decimal text of the connection counter determines the counter |
| Connection.HttpIdsDistinct | cryptofeed/connection.py:97-102 | two HTTP connections created from the same `conn_id` at different counter values get different ids |
| Connection.WsIdsDistinct | cryptofeed/connection.py:220-223 | two WebSocket connections created from the same `conn_id` at different counter values get different ids |
| Connection.HttpAndWsIdsDiffer | cryptofeed/connection.py:223 | an HTTP id and a WebSocket id built from the same `conn_id` never coincide |
| Connection.AfterTransportClosed | cryptofeed/connection.py:104-106 | a transport closed under the connection leaves the reference in place but makes `is_open` false, nothing else changes |
| Connection.WsReadAfterTransportClosed | cryptofeed/connection.py:241-244 | a WebSocket whose transport closed under it raises ConnectionClosed on read |
| Connection.AfterClose | cryptofeed/connection.py:88-93 | close leaves the connection not open; when not open it changes nothing; when open it drops only the transport reference |
| Connection.CloseIdempotent | cryptofeed/connection.py:88-93 | closing twice equals closing once |
| Connection.AfterHttpOpen | cryptofeed/connection.py:108-115 | HTTP open leaves the connection open; already open: nothing changes; otherwise exactly one new session and `sent`/`received` zeroed |
| Connection.HttpOpenIdempotent | cryptofeed/connection.py:108-115 | opening twice equals opening once and creates at most one session |
| Connection.AfterHttpRead | cryptofeed/connection.py:117-135 | HTTP read opens a session only when not open (an open one is kept), increments `received` by one (from 0 on a new session), sets `last_message`, records the body with the raw-data callback, sends nothing, and only then fails on a non-2xx status |
| Connection.HttpReadAfterCloseReopens | cryptofeed/connection.py:117-128 | a read after close opens a fresh session and leaves `received == 1`, `sent == 0` |
| Connection.AfterHttpWrite | cryptofeed/connection.py:137-147 | HTTP write opens a session only when not open (an open one is kept), posts the message, increments `sent` by one, leaves `received` and `last_message`, records the response with the raw-data callback before the status check |
| Connection.AfterPoll | cryptofeed/connection.py:190-204 | a poll on a closed connection raises ConnectionClosed and changes nothing (no auto-open); otherwise it keeps the session, counts and records the response before the status check, and sends nothing |
| Connection.AfterWsOpen | cryptofeed/connection.py:230-239 | WebSocket open leaves it open with `sent`/`received` zeroed in both branches; a new socket is announced to the raw-data callback |
| Connection.AfterWsRead | cryptofeed/connection.py:241-255 | a WebSocket read raises ConnectionClosed when not open and changes nothing; otherwise it keeps the session, yields the frame, increments `received`, sets `last_message`, records the frame, and sends nothing |
| Connection.AfterWsWrite | cryptofeed/connection.py:257-265 | a WebSocket write raises ConnectionClosed when not open and changes nothing; otherwise it records, sends the data, increments `sent` by exactly one and returns nothing (`None`) |
| Connection.WsWritesAppend | cryptofeed/connection.py:257-265 | successive writes on an open socket keep it open, send the frames in order, count each one, and record each one after the earlier trace |
| Connection.WsWritesConcat | cryptofeed/connection.py:257-265 | writing `a` then `b` is writing `a + b` |
| Connection.Trunc | cryptofeed/connection.py:162 | `int(now)` truncates toward zero: the floor for non-negative times, the ceiling for negative ones |
| Connection.NextReset | cryptofeed/connection.py:161-162 | the boundary `(int(now) // 60 + 1) * 60` is a multiple of 60, strictly after `now`, and at most 60 s after a non-negative `now` |
| Connection.Throttle | cryptofeed/connection.py:158-177 | a read waits iff the accumulated weight reaches the limit; without a wait the used weight is below the limit and the boundary is not before `now`; after a wait the used weight is this call's weight, the wake-up is not before the boundary, and the new boundary is `NextReset` of the wake-up, i.e. the next whole minute after it; an infinite limit never waits; boundaries stay whole minutes |
| Connection.ExpiredWindowRestarts | cryptofeed/connection.py:163-167 | once the boundary has strictly passed, the window restarts with this call's weight and a fresh boundary |
| Connection.BoundaryInstantAccumulates | cryptofeed/connection.py:163 | at the boundary instant itself nothing resets and the weight accumulates |
| Connection.MinuteBudget | cryptofeed/connection.py:159-176 | reads within one minute bucket that all went through without waiting were charged to that bucket, and their total weight stayed below the limit |
| Connection.ThirdReadOfFourWaits | cryptofeed/connection.py:158-177 | limit 10, weights 4, 4, 4 in one minute: the third read waits until the boundary and leaves a used weight of 4 |
| Connection.Registry.constructor | cryptofeed/connection.py:55 | the shared counter starts at 0 |
| Connection.AsyncConnection.constructor | cryptofeed/connection.py:57-67 | construction increments the shared counter and starts closed with zero counters and no last message |
| Connection.AsyncConnection.TransportClosed | cryptofeed/connection.py:104-106 | the transport closing under the connection is `AfterTransportClosed` |
| Connection.AsyncConnection.Close | cryptofeed/connection.py:88-93 | the new state is `AfterClose` of the old |
| Connection.HTTPAsyncConn.constructor | cryptofeed/connection.py:97-102 | the id is `{conn_id}.http.{n}` with `n` the counter before this construction's increment |
| Connection.HTTPAsyncConn.Open | cryptofeed/connection.py:108-115 | the new state is `AfterHttpOpen` of the old |
| Connection.HTTPAsyncConn.Read | cryptofeed/connection.py:117-135 | state and result are `AfterHttpRead` of the old state |
| Connection.HTTPAsyncConn.Write | cryptofeed/connection.py:137-147 | state and result are `AfterHttpWrite` of the old state |
| Connection.ThrottledHTTPAsyncConn.constructor | cryptofeed/connection.py:151-156 | an HTTP connection with `used_limit == 0` and no boundary; the interval is stored only |
| Connection.ThrottledHTTPAsyncConn.Read | cryptofeed/connection.py:158-177 | the window moves as `Throttle` says, then the read is delegated at the clock reading after any wait |
| Connection.HTTPPoll.constructor | cryptofeed/connection.py:181-188 | the id carries the `.http.{n}` suffix twice; a single address becomes a one-element list |
| Connection.HTTPPoll.Read | cryptofeed/connection.py:190-206 | polling the k-th address is `AfterPoll` |
| Connection.WSAsyncConn.constructor | cryptofeed/connection.py:211-224 | the id is `{conn_id}.ws.{n}` with `n` the counter before the increment |
| Connection.WSAsyncConn.Create | cryptofeed/connection.py:220-223 | an address not starting with `wss://` raises ValueError before the counter is touched; otherwise a connection is built and the counter incremented |
| Connection.WSAsyncConn.Open | cryptofeed/connection.py:230-239 | the new state is `AfterWsOpen` of the old |
| Connection.WSAsyncConn.Read | cryptofeed/connection.py:241-255 | the first item is `AfterWsRead` |
| Connection.WSAsyncConn.Write | cryptofeed/connection.py:257-265 | state and result are `AfterWsWrite` |
| HitBTC.Normalized | cryptofeed/exchange/hitbtc.py:34-35 | the normalised name is the id with the separator inserted at `len(baseCurrency)`: the id's head, then the separator, then the id's tail |
| HitBTC.SymbolTable | cryptofeed/exchange/hitbtc.py:33-36 | the keys of `ret` are exactly the normalised names of the entries |
| HitBTC.TickTable | cryptofeed/exchange/hitbtc.py:33-37 | the keys of `info['tick_size']` are exactly the normalised names of the entries |
| HitBTC.SeparatorRemovalRecoversId | cryptofeed/exchange/hitbtc.py:34-35 | the separator sits at `len(baseCurrency)` (clamped to the id) and deleting it recovers the exchange id |
| HitBTC.NormalizedInjective | cryptofeed/exchange/hitbtc.py:34-36 | with equal base lengths, equal normalised names mean equal ids |
| HitBTC.SymbolTableAt | cryptofeed/exchange/hitbtc.py:33-37 | every normalised name is in both tables, mapped to the id and tick size of the last entry producing it |
| HitBTC.SymbolTableKeys | cryptofeed/exchange/hitbtc.py:33-37 | every key of the table is the normalised name of an entry whose id it maps to |
| HitBTC.ParseSymbolData | cryptofeed/exchange/hitbtc.py:30-38 | the loop builds exactly the symbol and tick-size tables, on the same keys |
| HitBTC.ApplyLevel | cryptofeed/exchange/hitbtc.py:57-65 | one entry: size 0 removes its price (present or not), any other size sets it; every other price is unchanged |
| HitBTC.HitBTCFeed.ApplyEntry | cryptofeed/exchange/hitbtc.py:57-65 | the branch on `size == 0` computes `ApplyLevel` and reports the entry as applied |
| HitBTC.ApplyLevels | cryptofeed/exchange/hitbtc.py:55-65 | an update can only keep prices already present or add prices named in it |
| HitBTC.SnapshotSide | cryptofeed/exchange/hitbtc.py:72-75 | a snapshot side holds exactly the prices named in the frame |
| HitBTC.ApplyLevelsAt | cryptofeed/exchange/hitbtc.py:55-65 | after an update, a price named in it is decided by its last entry (size 0: absent, whether or not it was present; otherwise that size); every other price is unchanged |
| HitBTC.SnapshotSideAt | cryptofeed/exchange/hitbtc.py:70-75 | after a snapshot a side holds exactly the prices of its entries, each at its last size, size 0 included |
| HitBTC.ApplyLevelsKeepsNoEmptyLevels | cryptofeed/exchange/hitbtc.py:59-64 | incremental updates never introduce a level of size 0: any size-0 level afterwards was there before, untouched |
| HitBTC.RemovingTheOnlyAsk | cryptofeed/exchange/hitbtc.py:52-76 | snapshot {bid 100: 1, ask 101: 2} then ask 101 at size 0 leaves {bid 100: 1} and no asks |
| HitBTC.TradeEvents | cryptofeed/exchange/hitbtc.py:78-93 | one trade callback per element of `data`, in order; BUY iff the side is "buy"; price, amount and id carried over; receipt time equal to the trade's normalised time |
| HitBTC.CheckSequence | cryptofeed/exchange/hitbtc.py:98-104 | a frame without `params.sequence` passes with `seq_no` unchanged; one with a sequence fails with MissingSequenceNumber iff its symbol is known and the sequence is not last + 1, and otherwise records the sequence for its symbol, every other symbol's entry unchanged |
| HitBTC.Guard | cryptofeed/exchange/hitbtc.py:98-104 | a frame is rejected iff its symbol is known and the sequence is not last + 1; otherwise exactly that symbol's entry becomes the sequence |
| HitBTC.GuardAcceptsExactlyConsecutive | cryptofeed/exchange/hitbtc.py:98-104 | a run of frames for one symbol passes iff its numbers are consecutive (the first one free for a new symbol), and the last number is remembered |
| HitBTC.RouteOf | cryptofeed/exchange/hitbtc.py:106-124 | KeyError on `params` iff a handled method has no params, on `data` iff a `ticker` channel frame without method has no data, on `result` iff a frame with neither method nor channel has no `error` and no `result`; it raises iff one of those three holds; it drops (logs only) exactly the unknown methods, the non-ticker channels and the error/result envelopes; a handled method takes its params, a channel frame its data, and only the ticker is reached by channel |
| HitBTC.BookRoutes | cryptofeed/exchange/hitbtc.py:106-124 | `snapshotOrderbook` alone reaches the snapshot handler and `updateOrderbook` alone the incremental one, only `updateTrades`/`snapshotTrades` reach trades, only the `ticker` method or the `ticker` channel reach the ticker |
| HitBTC.SubscribeRequestsExactly | cryptofeed/exchange/hitbtc.py:126-136 | subscribe requests number Σ\|subscription[chan]\|, and a request is among them iff its method is a channel, its symbol one of that channel's pairs, and its id the connection's |
| HitBTC.HitBTCFeed.constructor | cryptofeed/exchange/hitbtc.py:40-42 | the adapter starts with no sequence numbers, no books and no events |
| HitBTC.HitBTCFeed.Ticker | cryptofeed/exchange/hitbtc.py:44-50 | one ticker callback with the mapped symbol, best bid/ask, normalised time and receipt time |
| HitBTC.HitBTCFeed.UpdateSide | cryptofeed/exchange/hitbtc.py:55-65 | one side of the pair becomes `ApplyLevels` of its entries, nothing else in the book changes, and the side's delta is exactly the input entries in input order |
| HitBTC.HitBTCFeed.UpdateBook | cryptofeed/exchange/hitbtc.py:52-66 | the pair's book becomes `UpdatedBook`, other pairs are untouched, and one non-snapshot event carries the new book and the delta of both sides |
| HitBTC.HitBTCFeed.SnapshotSideInto | cryptofeed/exchange/hitbtc.py:71-75 | one side of a fresh book becomes `SnapshotSide` of its entries |
| HitBTC.HitBTCFeed.Snapshot | cryptofeed/exchange/hitbtc.py:68-76 | the pair's book is replaced by exactly the snapshot's entries, and one snapshot event with no delta is emitted |
| HitBTC.HitBTCFeed.Trades | cryptofeed/exchange/hitbtc.py:78-93 | appends exactly `TradeEvents` of the frame |
| HitBTC.HitBTCFeed.MessageHandler | cryptofeed/exchange/hitbtc.py:95-124 | a sequence gap raises MissingSequenceNumber and changes nothing; otherwise the guard's map is stored and the frame goes to exactly one handler, or is dropped with books and events unchanged |
| HitBTC.HitBTCFeed.SubscribeChannel | cryptofeed/exchange/hitbtc.py:128-136 | one request per pair of the channel is written; on a closed socket the first write raises and nothing is written |
| HitBTC.HitBTCFeed.Subscribe | cryptofeed/exchange/hitbtc.py:126-136 | an open socket receives exactly the subscribe requests in order; a closed one raises ConnectionClosed unchanged unless there was nothing to write |

## Left out

- I/O: aiohttp, websockets and requests are not modelled. A response is its body plus whether its status was 2xx. Response headers, `return_headers` and the `x-mbx-used-weight` header logging are left out.
- `HTTPSync`: a thin synchronous wrapper around `requests`, with no state of its own.
- async machinery: the infinite generators of `HTTPPoll.read` and `WSAsyncConn.read` are modelled one item at a time. `HTTPPoll.Read` takes the index of the address being polled. The `sleep` and `delay` pauses between polls are stored but not modelled.
- `connect()`, the context manager that opens and closes around a block, is left out: it only calls `_open` and `close`.
- Connection.ThrottledHTTPAsyncConn.Read: the float `wait_time` is not computed. The sleep is a clock that wakes `slack >= 0` after `next_reset`, and no time passes between the clock readings of lines 160 and 172.
- `throttle_interval` is stored and never read, as in the source.
- Logging (`LOG.*`) is left out. The "invalid message" and "error from server" branches appear as the `Dropped` route.
- JSON decoding: frames arrive as `Frame` records. Missing top-level keys the handler reads (`params`, `data`, `result`) become `KeyError`. Fields inside `params` are assumed present.
- HitBTC.Dumps: the exact separators and string escaping of the JSON encoder are not modelled.
- The feed base class and `cryptofeed.standards` are not part of this model. `exchange_symbol_to_std_symbol` (feed base class) and `timestamp_normalize` (`cryptofeed.standards`) are opaque total functions, so the unknown-symbol error of a snapshot is not modelled. `maybe_decimal` is taken as already applied. `callback`/`book_callback` append to `events`.
- HitBTC.HitBTCFeed.MessageHandler: requires that an `updateOrderbook` frame that passed the sequence guard names a pair that already has a book, since how `l2_book` behaves for a missing pair is defined outside these files.
- `SortedDict` ordering is not modelled; a side is an unordered `map`. `Decimal` precision is not modelled; prices and sizes are exact reals.
- Concurrency between connection tasks is not modelled.
- `subscription` is taken as a list of (channel, pairs) in iteration order; its container type comes from the feed base class, which is not modelled, so whether a pair can occur twice is not decided here.
- Connection.HTTPPoll.Read: requires a valid address index. With an empty address list the source's `read` never yields or raises and only sleeps `delay` forever; that non-terminating case is not modelled.
- `throttle_limit`: a finite limit is an integer. A fractional limit (the source's default is the float infinity, so other floats are accepted) is not expressible.
- The `is_open` property of `HTTPAsyncConn` and `WSAsyncConn` (`Connection.IsOpen`; the base class's own raises NotImplementedError) and the address wrapping of the polling constructor (`Connection.AddressList`) are definitions without a contract of their own; their behaviour is stated by the rows of `AfterTransportClosed`, `AfterClose` and `HTTPPoll.constructor`.
