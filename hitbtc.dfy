/**
 * The HitBTC exchange adapter (cryptofeed/exchange/hitbtc.py): symbol
 * table parsing, the per-symbol sequence guard, the level-2 order-book
 * replica (snapshot and incremental update), trades and tickers, frame
 * dispatch, and the subscription frames it writes.
 *
 * Frames arrive already decoded from JSON, as `Frame` records. Prices
 * and sizes (Python `Decimal`) are reals. The symbol mapping and the
 * timestamp normalisation of the feed base class are opaque functions
 * the adapter is constructed with; callbacks append to `events`.
 */
module HitBTC {
  import opened Wrappers
  import Connection

  // ---------------------------------------------------------------------
  // Symbol table
  // ---------------------------------------------------------------------

  /** One entry of the exchange's symbol list. */
  datatype SymbolInfo = SymbolInfo(id: string, baseCurrency: string, tickSize: real)

  /** Where the separator goes: `len(baseCurrency)`, clamped to the id as Python slicing does. */
  function SplitAt(s: SymbolInfo): nat
  {
    if |s.baseCurrency| <= |s.id| then |s.baseCurrency| else |s.id|
  }

  /** `id[:split] + symbol_separator + id[split:]`. */
  function Normalized(s: SymbolInfo, sep: string): (r: string)
    ensures |r| == |s.id| + |sep|
    ensures r[..SplitAt(s)] == s.id[..SplitAt(s)] && r[SplitAt(s) + |sep|..] == s.id[SplitAt(s)..]
  {
    s.id[..SplitAt(s)] + sep + s.id[SplitAt(s)..]
  }

  /** Removing the separator from the normalised name gives back the exchange id. */
  lemma SeparatorRemovalRecoversId(s: SymbolInfo, sep: string)
    ensures var n := Normalized(s, sep); var k := SplitAt(s);
      |n| == |s.id| + |sep| && n[k..k + |sep|] == sep && n[..k] + n[k + |sep|..] == s.id
  {
    var n := Normalized(s, sep);
    var k := SplitAt(s);
    assert n[..k] == s.id[..k];
    assert n[k + |sep|..] == s.id[k..];
  }

  /** Two symbols with the same base length and the same normalised name have the same id. */
  lemma NormalizedInjective(s: SymbolInfo, t: SymbolInfo, sep: string)
    requires SplitAt(s) == SplitAt(t) && Normalized(s, sep) == Normalized(t, sep)
    ensures s.id == t.id
  {
    SeparatorRemovalRecoversId(s, sep);
    SeparatorRemovalRecoversId(t, sep);
  }

  /** The `ret` table after `data`: normalised name to exchange id, later entries overwriting earlier ones. */
  function SymbolTable(data: seq<SymbolInfo>, sep: string): (r: map<string, string>)
    ensures r.Keys == set s | s in data :: Normalized(s, sep)
  {
    if data == [] then map[]
    else
      var last := data[|data| - 1];
      assert data == data[..|data| - 1] + [last];
      SymbolTable(data[..|data| - 1], sep)[Normalized(last, sep) := last.id]
  }

  /** The `info['tick_size']` table after `data`. */
  function TickTable(data: seq<SymbolInfo>, sep: string): (r: map<string, real>)
    ensures r.Keys == set s | s in data :: Normalized(s, sep)
  {
    if data == [] then map[]
    else
      var last := data[|data| - 1];
      assert data == data[..|data| - 1] + [last];
      TickTable(data[..|data| - 1], sep)[Normalized(last, sep) := last.tickSize]
  }

  /**
   * The symbol table holds exactly the normalised names of `data`, and a
   * name maps to the id (and tick size) of the last entry that produces it.
   */
  lemma {:induction false} SymbolTableAt(data: seq<SymbolInfo>, sep: string, i: nat)
    requires i < |data|
    requires forall j :: i < j < |data| ==> Normalized(data[j], sep) != Normalized(data[i], sep)
    ensures Normalized(data[i], sep) in SymbolTable(data, sep)
    ensures SymbolTable(data, sep)[Normalized(data[i], sep)] == data[i].id
    ensures Normalized(data[i], sep) in TickTable(data, sep)
    ensures TickTable(data, sep)[Normalized(data[i], sep)] == data[i].tickSize
  {
    if i < |data| - 1 {
      var init := data[..|data| - 1];
      assert forall j :: i < j < |init| ==> init[j] == data[j];
      SymbolTableAt(init, sep, i);
    }
  }

  /** Every key of the symbol table is the normalised name of some entry. */
  lemma {:induction false} SymbolTableKeys(data: seq<SymbolInfo>, sep: string, name: string)
    requires name in SymbolTable(data, sep)
    ensures exists i :: 0 <= i < |data| && Normalized(data[i], sep) == name && SymbolTable(data, sep)[name] == data[i].id
  {
    var last := data[|data| - 1];
    if Normalized(last, sep) != name {
      var init := data[..|data| - 1];
      SymbolTableKeys(init, sep, name);
      var i :| 0 <= i < |init| && Normalized(init[i], sep) == name && SymbolTable(init, sep)[name] == init[i].id;
      assert data[i] == init[i];
    }
  }

  /** `HitBTC._parse_symbol_data`. */
  method ParseSymbolData(data: seq<SymbolInfo>, sep: string) returns (ret: map<string, string>, tickSize: map<string, real>)
    ensures ret == SymbolTable(data, sep) && tickSize == TickTable(data, sep)
    ensures ret.Keys == tickSize.Keys
  {
    ret, tickSize := map[], map[];
    var i := 0;
    while i < |data|
      invariant 0 <= i <= |data|
      invariant ret == SymbolTable(data[..i], sep) && tickSize == TickTable(data[..i], sep)
      invariant ret.Keys == tickSize.Keys
    {
      var symbol := data[i];
      var normalized := Normalized(symbol, sep);
      ret := ret[normalized := symbol.id];
      tickSize := tickSize[normalized := symbol.tickSize];
      assert data[..i + 1][..i] == data[..i];
      i := i + 1;
    }
    assert data[..i] == data;
  }

  // ---------------------------------------------------------------------
  // Frames and events
  // ---------------------------------------------------------------------

  /** One `{price, size}` entry of a book frame; also one element of a reported delta. */
  datatype Level = Level(price: real, size: real)

  /** One element of a trades frame's `data`. */
  datatype TradeEntry = TradeEntry(price: real, quantity: real, side: string, id: int, timestamp: string)

  /**
   * The `params` (or `data`) object of a frame. Which fields matter
   * depends on the method: `bid`/`ask` level lists for book frames,
   * `bestBid`/`bestAsk`/`timestamp` (the ticker's `bid`, `ask`,
   * `timestamp`) for tickers, `data` for trades.
   */
  datatype Params = Params(
    symbol: string,
    sequence: Option<int>,
    bid: seq<Level>,
    ask: seq<Level>,
    bestBid: Option<real>,
    bestAsk: Option<real>,
    timestamp: string,
    data: seq<TradeEntry>)

  /**
   * A decoded frame: the optional top-level keys `method`, `channel`,
   * `params`, `data`, whether an `error` key is present, and the
   * truthiness of `result` when that key is present.
   */
  datatype Frame = Frame(
    methodName: Option<string>,
    channel: Option<string>,
    params: Option<Params>,
    data: Option<Params>,
    error: bool,
    result: Option<bool>)

  datatype Side = Bid | Ask
  datatype TradeSide = Buy | Sell

  /** One side's price-to-size map per side. */
  datatype Book = Book(bid: map<real, real>, ask: map<real, real>)

  /** The per-side list of applied entries reported with an incremental update. */
  datatype Delta = Delta(bid: seq<Level>, ask: seq<Level>)

  /** What the callbacks receive. */
  datatype Event =
    | TickerEvent(symbol: string, bid: Option<real>, ask: Option<real>, timestamp: real, receiptTimestamp: real)
    | TradeEvent(symbol: string, side: TradeSide, amount: real, price: real, orderId: int,
                 timestamp: real, receiptTimestamp: real)
    | BookEvent(symbol: string, book: Book, isSnapshot: bool, delta: Option<Delta>,
                timestamp: real, receiptTimestamp: real)

  datatype HandlerError =
    | MissingSequenceNumber  // cryptofeed.exceptions.MissingSequenceNumber
    | KeyError(key: string)  // a top-level key the handler needs is absent

  function SideOf(b: Book, side: Side): map<real, real>
  {
    match side
    case Bid => b.bid
    case Ask => b.ask
  }

  function WithSide(b: Book, side: Side, m: map<real, real>): Book
  {
    match side
    case Bid => b.(bid := m)
    case Ask => b.(ask := m)
  }

  // ---------------------------------------------------------------------
  // Book arithmetic
  // ---------------------------------------------------------------------

  /** One entry of an incremental update: size 0 deletes the level, any other size sets it. */
  function ApplyLevel(m: map<real, real>, e: Level): (r: map<real, real>)
    ensures e.size == 0.0 ==> e.price !in r
    ensures e.size != 0.0 ==> e.price in r && r[e.price] == e.size
    ensures forall q :: q != e.price ==> (q in r <==> q in m) && (q in m ==> r[q] == m[q])
  {
    if e.size == 0.0 then m - {e.price} else m[e.price := e.size]
  }

  /** The entries of an incremental update, in order. */
  function ApplyLevels(m: map<real, real>, es: seq<Level>): (r: map<real, real>)
    ensures r.Keys <= m.Keys + set e | e in es :: e.price
  {
    if es == [] then m else ApplyLevel(ApplyLevels(m, es[..|es| - 1]), es[|es| - 1])
  }

  /** The entries of a snapshot, in order, into an empty side: every entry is stored, size 0 included. */
  function SnapshotSide(es: seq<Level>): (r: map<real, real>)
    ensures r.Keys == set e | e in es :: e.price
  {
    if es == [] then map[] else SnapshotSide(es[..|es| - 1])[es[|es| - 1].price := es[|es| - 1].size]
  }

  /** The index of the last entry of `es` at price `p`, if any. */
  function LastAt(es: seq<Level>, p: real): (r: Option<nat>)
    ensures r.Some? ==> r.value < |es| && es[r.value].price == p
    ensures r.Some? ==> forall j :: r.value < j < |es| ==> es[j].price != p
    ensures r.None? ==> forall j :: 0 <= j < |es| ==> es[j].price != p
  {
    if es == [] then None
    else if es[|es| - 1].price == p then Some(|es| - 1)
    else LastAt(es[..|es| - 1], p)
  }

  /**
   * After an incremental update a level named in it is decided by the
   * last entry at that price (deleted if its size is 0, set to its size
   * otherwise), and every level not named in it is as before.
   */
  lemma {:induction false} ApplyLevelsAt(m: map<real, real>, es: seq<Level>, p: real)
    ensures LastAt(es, p).None? ==> (p in ApplyLevels(m, es) <==> p in m)
    ensures LastAt(es, p).None? && p in m ==> ApplyLevels(m, es)[p] == m[p]
    ensures LastAt(es, p).Some? && es[LastAt(es, p).value].size == 0.0 ==> p !in ApplyLevels(m, es)
    ensures LastAt(es, p).Some? && es[LastAt(es, p).value].size != 0.0
            ==> p in ApplyLevels(m, es) && ApplyLevels(m, es)[p] == es[LastAt(es, p).value].size
  {
    if es != [] && es[|es| - 1].price != p {
      ApplyLevelsAt(m, es[..|es| - 1], p);
    }
  }

  /** After a snapshot a side holds exactly the prices of its entries, each at its last size, zeros included. */
  lemma {:induction false} SnapshotSideAt(es: seq<Level>, p: real)
    ensures p in SnapshotSide(es) <==> LastAt(es, p).Some?
    ensures p in SnapshotSide(es) ==> SnapshotSide(es)[p] == es[LastAt(es, p).value].size
  {
    if es != [] && es[|es| - 1].price != p {
      SnapshotSideAt(es[..|es| - 1], p);
    }
  }

  /** No level of size 0. */
  predicate NoEmptyLevels(m: map<real, real>)
  {
    forall p :: p in m ==> m[p] != 0.0
  }

  /**
   * Incremental updates never introduce a level of size 0: a level of
   * size 0 after the update was already there, untouched, before it.
   */
  lemma {:induction false} ApplyLevelsKeepsNoEmptyLevels(m: map<real, real>, es: seq<Level>)
    ensures forall p :: p in ApplyLevels(m, es) && ApplyLevels(m, es)[p] == 0.0 ==> p in m && m[p] == 0.0
    ensures NoEmptyLevels(m) ==> NoEmptyLevels(ApplyLevels(m, es))
  {
    if es != [] {
      ApplyLevelsKeepsNoEmptyLevels(m, es[..|es| - 1]);
    }
  }

  /** The book of a snapshot frame. */
  function SnapshotBook(p: Params): Book
  {
    Book(SnapshotSide(p.bid), SnapshotSide(p.ask))
  }

  /** The book after an incremental frame. */
  function UpdatedBook(b: Book, p: Params): Book
  {
    Book(ApplyLevels(b.bid, p.bid), ApplyLevels(b.ask, p.ask))
  }

  /** Snapshot {bid 100: 1, ask 101: 2}, then ask 101 at size 0, leaves {bid 100: 1} and no asks. */
  lemma RemovingTheOnlyAsk()
    ensures var s := SnapshotBook(Params("BTCUSD", None, [Level(100.0, 1.0)], [Level(101.0, 2.0)], None, None, "", []));
      var u := Params("BTCUSD", None, [], [Level(101.0, 0.0)], None, None, "", []);
      s == Book(map[100.0 := 1.0], map[101.0 := 2.0])
      && UpdatedBook(s, u) == Book(map[100.0 := 1.0], map[])
  {
    var s := SnapshotBook(Params("BTCUSD", None, [Level(100.0, 1.0)], [Level(101.0, 2.0)], None, None, "", []));
    assert [Level(101.0, 0.0)][..0] == [];
    assert s.ask == map[101.0 := 2.0];
    assert map[101.0 := 2.0] - {101.0} == map[];
  }

  // ---------------------------------------------------------------------
  // Trades, sequence guard, dispatch, subscription
  // ---------------------------------------------------------------------

  /** The callback of one trade: BUY iff the side is "buy"; the receipt time is the trade's own time. */
  function TradeEventOf(pair: string, u: TradeEntry, normalizeTs: string -> real): Event
  {
    var ts := normalizeTs(u.timestamp);
    TradeEvent(pair, if u.side == "buy" then Buy else Sell, u.quantity, u.price, u.id, ts, ts)
  }

  /** The callbacks of one trades frame: one per element of `data`, in order. */
  function TradeEvents(pair: string, data: seq<TradeEntry>, normalizeTs: string -> real): (r: seq<Event>)
    ensures |r| == |data|
    ensures forall i :: 0 <= i < |data| ==>
      && r[i].TradeEvent? && r[i].symbol == pair
      && (r[i].side == Buy <==> data[i].side == "buy")
      && r[i].price == data[i].price && r[i].amount == data[i].quantity && r[i].orderId == data[i].id
      && r[i].timestamp == r[i].receiptTimestamp == normalizeTs(data[i].timestamp)
  {
    seq(|data|, i requires 0 <= i < |data| => TradeEventOf(pair, data[i], normalizeTs))
  }

  /** The sequence guard for one frame's `symbol` and `sequence`. */
  function Guard(seqNo: map<string, int>, symbol: string, sequence: int): (r: Result<map<string, int>, HandlerError>)
    ensures r.Err? <==> symbol in seqNo && seqNo[symbol] + 1 != sequence
    ensures r.Err? ==> r.error == MissingSequenceNumber
    ensures r.Ok? ==> r.value.Keys == seqNo.Keys + {symbol} && r.value[symbol] == sequence
    ensures r.Ok? ==> forall s :: s in seqNo && s != symbol ==> r.value[s] == seqNo[s]
  {
    if symbol in seqNo && seqNo[symbol] + 1 != sequence then Err(MissingSequenceNumber)
    else Ok(seqNo[symbol := sequence])
  }

  /** The sequence guard of `message_handler`: only frames whose params carry a sequence are checked. */
  function CheckSequence(seqNo: map<string, int>, f: Frame): (r: Result<map<string, int>, HandlerError>)
    ensures f.params.None? || f.params.value.sequence.None? ==> r == Ok(seqNo)
    ensures r.Err? <==> f.params.Some? && f.params.value.sequence.Some? && f.params.value.symbol in seqNo
                        && seqNo[f.params.value.symbol] + 1 != f.params.value.sequence.value
    ensures r.Err? ==> r.error == MissingSequenceNumber
    ensures r.Ok? && f.params.Some? && f.params.value.sequence.Some? ==>
      r.value.Keys == seqNo.Keys + {f.params.value.symbol} && r.value[f.params.value.symbol] == f.params.value.sequence.value
    ensures r.Ok? && f.params.Some? && f.params.value.sequence.Some? ==>
      forall s :: s in seqNo && s != f.params.value.symbol ==> r.value[s] == seqNo[s]
  {
    if f.params.Some? && f.params.value.sequence.Some? then
      Guard(seqNo, f.params.value.symbol, f.params.value.sequence.value)
    else Ok(seqNo)
  }

  /** The guard run over the sequence numbers of consecutive frames for one symbol. */
  function GuardAll(seqNo: map<string, int>, symbol: string, ss: seq<int>): Result<map<string, int>, HandlerError>
  {
    if ss == [] then Ok(seqNo)
    else
      match GuardAll(seqNo, symbol, ss[..|ss| - 1])
      case Err(e) => Err(e)
      case Ok(m) => Guard(m, symbol, ss[|ss| - 1])
  }

  /** Each number is one more than the previous one, the first one more than the last one recorded, if any. */
  predicate Consecutive(seqNo: map<string, int>, symbol: string, ss: seq<int>)
  {
    && (symbol in seqNo && ss != [] ==> ss[0] == seqNo[symbol] + 1)
    && (forall i :: 0 < i < |ss| ==> ss[i] == ss[i - 1] + 1)
  }

  /**
   * A run of frames for one symbol passes the guard exactly when its
   * sequence numbers are consecutive; the first number seen for a new
   * symbol is accepted whatever it is, and the last one is remembered.
   */
  lemma {:induction false} GuardAcceptsExactlyConsecutive(seqNo: map<string, int>, symbol: string, ss: seq<int>)
    ensures GuardAll(seqNo, symbol, ss).Ok? <==> Consecutive(seqNo, symbol, ss)
    ensures GuardAll(seqNo, symbol, ss).Ok? && ss != [] ==> GuardAll(seqNo, symbol, ss).value[symbol] == ss[|ss| - 1]
    ensures GuardAll(seqNo, symbol, ss).Ok? && ss == [] ==> GuardAll(seqNo, symbol, ss).value == seqNo
  {
    if ss != [] {
      var init := ss[..|ss| - 1];
      GuardAcceptsExactlyConsecutive(seqNo, symbol, init);
      assert forall i :: 0 <= i < |init| ==> init[i] == ss[i];
      if Consecutive(seqNo, symbol, ss) {
        assert Consecutive(seqNo, symbol, init);
      }
    }
  }

  /** Where `message_handler` sends a frame that passed the sequence guard. */
  datatype Route =
    | ToTicker(p: Params)
    | ToSnapshot(p: Params)
    | ToBook(p: Params)
    | ToTrades(p: Params)
    | Dropped  // logged only

  /** The methods `message_handler` hands to a handler. */
  predicate KnownMethod(m: string)
  {
    m == "ticker" || m == "snapshotOrderbook" || m == "updateOrderbook" || m == "updateTrades" || m == "snapshotTrades"
  }

  /** The dispatch of `message_handler` on `method`, then `channel`, then the result/error envelope. */
  function RouteOf(f: Frame): (r: Result<Route, HandlerError>)
    ensures r == Err(KeyError("params")) <==> f.methodName.Some? && KnownMethod(f.methodName.value) && f.params.None?
    ensures r == Err(KeyError("data")) <==> f.methodName.None? && f.channel == Some("ticker") && f.data.None?
    ensures r == Err(KeyError("result")) <==> f.methodName.None? && f.channel.None? && !f.error && f.result.None?
    ensures r.Err? ==> r.error.KeyError?
    ensures r.Err? <==> (|| (f.methodName.Some? && KnownMethod(f.methodName.value) && f.params.None?)
                         || (f.methodName.None? && f.channel == Some("ticker") && f.data.None?)
                         || (f.methodName.None? && f.channel.None? && !f.error && f.result.None?))
    ensures r.Ok? && r.value.Dropped? <==> (|| (f.methodName.Some? && !KnownMethod(f.methodName.value))
                                          || (f.methodName.None? && f.channel.Some? && f.channel.value != "ticker")
                                          || (f.methodName.None? && f.channel.None? && (f.error || f.result.Some?)))
    ensures r.Ok? && !r.value.Dropped? && f.methodName.Some? ==> f.params == Some(r.value.p)
    ensures r.Ok? && !r.value.Dropped? && f.methodName.None? ==> f.data == Some(r.value.p) && r.value.ToTicker?
  {
    if f.methodName.Some? then
      var m := f.methodName.value;
      if KnownMethod(m) then
        if f.params.None? then Err(KeyError("params"))
        else if m == "ticker" then Ok(ToTicker(f.params.value))
        else if m == "snapshotOrderbook" then Ok(ToSnapshot(f.params.value))
        else if m == "updateOrderbook" then Ok(ToBook(f.params.value))
        else Ok(ToTrades(f.params.value))
      else Ok(Dropped)
    else if f.channel.Some? then
      if f.channel.value == "ticker" then
        if f.data.None? then Err(KeyError("data")) else Ok(ToTicker(f.data.value))
      else Ok(Dropped)
    else if f.error then Ok(Dropped)
    else if f.result.None? then Err(KeyError("result"))
    else Ok(Dropped)
  }

  /**
   * `snapshotOrderbook` alone reaches the snapshot handler and
   * `updateOrderbook` alone the incremental one; the trade methods reach
   * trades; a frame with a method never routes on its channel.
   */
  lemma BookRoutes(f: Frame)
    ensures RouteOf(f).Ok? && RouteOf(f).value.ToSnapshot? <==> f.methodName == Some("snapshotOrderbook") && f.params.Some?
    ensures RouteOf(f).Ok? && RouteOf(f).value.ToBook? <==> f.methodName == Some("updateOrderbook") && f.params.Some?
    ensures (RouteOf(f).Ok? && (RouteOf(f).value.ToSnapshot? || RouteOf(f).value.ToBook?))
        <==> (f.methodName == Some("snapshotOrderbook") || f.methodName == Some("updateOrderbook")) && f.params.Some?
    ensures RouteOf(f).Ok? && RouteOf(f).value.ToTrades?
        <==> (f.methodName == Some("updateTrades") || f.methodName == Some("snapshotTrades")) && f.params.Some?
    ensures RouteOf(f).Ok? && RouteOf(f).value.ToTicker?
        <==> (f.methodName == Some("ticker") && f.params.Some?) || (f.methodName.None? && f.channel == Some("ticker") && f.data.Some?)
  {
  }

  /** One subscription request: `{"method": chan, "params": {"symbol": pair}, "id": uuid}`. */
  datatype Request = Request(methodName: string, symbol: string, id: string)

  /** The request text `json.dumps` writes for a request. */
  function Dumps(r: Request): string
  {
    "{\"method\": \"" + r.methodName + "\", \"params\": {\"symbol\": \"" + r.symbol + "\"}, \"id\": \"" + r.id + "\"}"
  }

  function Texts(rs: seq<Request>): (r: seq<string>)
    ensures |r| == |rs| && forall i :: 0 <= i < |rs| ==> r[i] == Dumps(rs[i])
  {
    seq(|rs|, i requires 0 <= i < |rs| => Dumps(rs[i]))
  }

  /** The requests for one channel, one per pair. */
  function ChannelRequests(chan: string, pairs: seq<string>, id: string): seq<Request>
  {
    seq(|pairs|, i requires 0 <= i < |pairs| => Request(chan, pairs[i], id))
  }

  /** The requests `subscribe` writes, channel by channel, pair by pair. */
  function SubscribeRequests(sub: seq<(string, seq<string>)>, id: string): seq<Request>
  {
    if sub == [] then []
    else SubscribeRequests(sub[..|sub| - 1], id) + ChannelRequests(sub[|sub| - 1].0, sub[|sub| - 1].1, id)
  }

  /** The number of (channel, pair) entries of a subscription. */
  function PairCount(sub: seq<(string, seq<string>)>): nat
  {
    if sub == [] then 0 else PairCount(sub[..|sub| - 1]) + |sub[|sub| - 1].1|
  }

  /**
   * `subscribe` writes one request per (channel, pair) entry: as many as
   * there are entries, and a request is written exactly when its method
   * is a channel, its symbol one of that channel's pairs, and its id the
   * connection's.
   */
  lemma {:induction false} SubscribeRequestsExactly(sub: seq<(string, seq<string>)>, id: string, r: Request)
    ensures |SubscribeRequests(sub, id)| == PairCount(sub)
    ensures r in SubscribeRequests(sub, id)
        <==> r.id == id && exists c :: 0 <= c < |sub| && sub[c].0 == r.methodName && r.symbol in sub[c].1
  {
    if sub != [] {
      var init := sub[..|sub| - 1];
      var last := sub[|sub| - 1];
      SubscribeRequestsExactly(init, id, r);
      assert forall c :: 0 <= c < |init| ==> init[c] == sub[c];
      if r in ChannelRequests(last.0, last.1, id) {
        var i :| 0 <= i < |last.1| && ChannelRequests(last.0, last.1, id)[i] == r;
        assert last.1[i] == r.symbol;
      }
      if r.id == id && last.0 == r.methodName && r.symbol in last.1 {
        var i :| 0 <= i < |last.1| && last.1[i] == r.symbol;
        assert ChannelRequests(last.0, last.1, id)[i] == r;
      }
    }
  }

  /** The texts of `a + b` are the texts of `a` followed by those of `b`. */
  lemma TextsConcat(a: seq<Request>, b: seq<Request>)
    ensures Texts(a + b) == Texts(a) + Texts(b)
  {
  }

  // ---------------------------------------------------------------------
  // The adapter
  // ---------------------------------------------------------------------

  /** `HitBTC`: the adapter's sequence numbers, book replica and emitted events. */
  class HitBTCFeed {
    const toStd: string -> string        // exchange_symbol_to_std_symbol
    const normalizeTs: string -> real    // timestamp_normalize for this exchange
    const subscription: seq<(string, seq<string>)>
    var seqNo: map<string, int>
    var l2Book: map<string, Book>
    var events: seq<Event>

    constructor (toStd: string -> string, normalizeTs: string -> real, subscription: seq<(string, seq<string>)>)
      ensures this.toStd == toStd && this.normalizeTs == normalizeTs && this.subscription == subscription
      ensures seqNo == map[] && l2Book == map[] && events == []
    {
      this.toStd := toStd;
      this.normalizeTs := normalizeTs;
      this.subscription := subscription;
      seqNo := map[];
      l2Book := map[];
      events := [];
    }

    /** `_ticker`. */
    method Ticker(p: Params, timestamp: real)
      modifies this`events
      ensures events == old(events) + [TickerEvent(toStd(p.symbol), p.bestBid, p.bestAsk, normalizeTs(p.timestamp), timestamp)]
    {
      events := events + [TickerEvent(toStd(p.symbol), p.bestBid, p.bestAsk, normalizeTs(p.timestamp), timestamp)];
    }

    /** One entry of `_book`: size 0 deletes the level if present, any other size sets it; the entry is reported as applied. */
    static method ApplyEntry(levels: map<real, real>, entry: Level) returns (updated: map<real, real>, reported: Level)
      ensures updated == ApplyLevel(levels, entry)
      ensures reported == entry
    {
      updated := levels;
      if entry.size == 0.0 {
        if entry.price in updated {
          updated := updated - {entry.price};
        }
        reported := Level(entry.price, 0.0);
      } else {
        updated := updated[entry.price := entry.size];
        reported := Level(entry.price, entry.size);
      }
    }

    /** The inner loop of `_book` for one side: applies the entries and returns them as that side's delta. */
    method UpdateSide(pair: string, side: Side, entries: seq<Level>) returns (delta: seq<Level>)
      requires pair in l2Book
      modifies this`l2Book
      ensures l2Book == old(l2Book)[pair := WithSide(old(l2Book)[pair], side, ApplyLevels(SideOf(old(l2Book)[pair], side), entries))]
      ensures delta == entries
    {
      ghost var before := SideOf(l2Book[pair], side);
      delta := [];
      var i := 0;
      while i < |entries|
        invariant 0 <= i <= |entries|
        invariant l2Book == old(l2Book)[pair := WithSide(old(l2Book)[pair], side, ApplyLevels(before, entries[..i]))]
        invariant delta == entries[..i]
      {
        var levels, applied := ApplyEntry(SideOf(l2Book[pair], side), entries[i]);
        delta := delta + [applied];
        assert entries[..i + 1][..i] == entries[..i];
        assert ApplyLevels(before, entries[..i + 1]) == levels;
        l2Book := l2Book[pair := WithSide(l2Book[pair], side, levels)];
        i := i + 1;
      }
      assert entries[..i] == entries;
    }

    /** `_book`: an incremental update of the pair's book, reported with the entries it applied. */
    method UpdateBook(p: Params, timestamp: real)
      requires toStd(p.symbol) in l2Book
      modifies this`l2Book, this`events
      ensures var pair := toStd(p.symbol);
        && l2Book == old(l2Book)[pair := UpdatedBook(old(l2Book)[pair], p)]
        && events == old(events) + [BookEvent(pair, l2Book[pair], false, Some(Delta(p.bid, p.ask)), timestamp, timestamp)]
    {
      var pair := toStd(p.symbol);
      var bidDelta := UpdateSide(pair, Bid, p.bid);
      var askDelta := UpdateSide(pair, Ask, p.ask);
      events := events + [BookEvent(pair, l2Book[pair], false, Some(Delta(bidDelta, askDelta)), timestamp, timestamp)];
    }

    /** The inner loop of `_snapshot` for one side: stores every entry as given. */
    method SnapshotSideInto(pair: string, side: Side, entries: seq<Level>)
      requires pair in l2Book && SideOf(l2Book[pair], side) == map[]
      modifies this`l2Book
      ensures l2Book == old(l2Book)[pair := WithSide(old(l2Book)[pair], side, SnapshotSide(entries))]
    {
      var i := 0;
      while i < |entries|
        invariant 0 <= i <= |entries|
        invariant l2Book == old(l2Book)[pair := WithSide(old(l2Book)[pair], side, SnapshotSide(entries[..i]))]
      {
        var entry := entries[i];
        l2Book := l2Book[pair := WithSide(l2Book[pair], side, SideOf(l2Book[pair], side)[entry.price := entry.size])];
        assert entries[..i + 1][..i] == entries[..i];
        i := i + 1;
      }
      assert entries[..i] == entries;
    }

    /** `_snapshot`: replaces the pair's book wholesale; reported with no delta. */
    method Snapshot(p: Params, timestamp: real)
      modifies this`l2Book, this`events
      ensures var pair := toStd(p.symbol);
        && l2Book == old(l2Book)[pair := SnapshotBook(p)]
        && events == old(events) + [BookEvent(pair, SnapshotBook(p), true, None, timestamp, timestamp)]
    {
      var pair := toStd(p.symbol);
      l2Book := l2Book[pair := Book(map[], map[])];
      SnapshotSideInto(pair, Bid, p.bid);
      SnapshotSideInto(pair, Ask, p.ask);
      events := events + [BookEvent(pair, l2Book[pair], true, None, timestamp, timestamp)];
    }

    /** `_trades`: one callback per trade, in order. */
    method Trades(p: Params)
      modifies this`events
      ensures events == old(events) + TradeEvents(toStd(p.symbol), p.data, normalizeTs)
    {
      var pair := toStd(p.symbol);
      var i := 0;
      while i < |p.data|
        invariant 0 <= i <= |p.data|
        invariant events == old(events) + TradeEvents(pair, p.data[..i], normalizeTs)
      {
        var update := p.data[i];
        var side := if update.side == "buy" then Buy else Sell;
        var ts := normalizeTs(update.timestamp);
        events := events + [TradeEvent(pair, side, update.quantity, update.price, update.id, ts, ts)];
        assert TradeEvents(pair, p.data[..i + 1], normalizeTs) == TradeEvents(pair, p.data[..i], normalizeTs) + [TradeEventOf(pair, update, normalizeTs)];
        i := i + 1;
      }
      assert p.data[..i] == p.data;
    }

    /**
     * `message_handler`: the sequence guard first (a gap raises and
     * changes nothing), then dispatch on the frame's route.
     */
    method MessageHandler(f: Frame, timestamp: real) returns (r: Result<Route, HandlerError>)
      requires CheckSequence(seqNo, f).Ok? && RouteOf(f).Ok? && RouteOf(f).value.ToBook? ==> toStd(RouteOf(f).value.p.symbol) in l2Book
      modifies this`seqNo, this`l2Book, this`events
      ensures CheckSequence(old(seqNo), f).Err? ==>
        r == Err(MissingSequenceNumber) && seqNo == old(seqNo) && l2Book == old(l2Book) && events == old(events)
      ensures CheckSequence(old(seqNo), f).Ok? ==> seqNo == CheckSequence(old(seqNo), f).value && r == RouteOf(f)
      ensures CheckSequence(old(seqNo), f).Ok? ==>
        match RouteOf(f)
        case Err(_) => l2Book == old(l2Book) && events == old(events)
        case Ok(Dropped) => l2Book == old(l2Book) && events == old(events)
        case Ok(ToTicker(p)) =>
          && l2Book == old(l2Book)
          && events == old(events) + [TickerEvent(toStd(p.symbol), p.bestBid, p.bestAsk, normalizeTs(p.timestamp), timestamp)]
        case Ok(ToSnapshot(p)) =>
          && l2Book == old(l2Book)[toStd(p.symbol) := SnapshotBook(p)]
          && events == old(events) + [BookEvent(toStd(p.symbol), SnapshotBook(p), true, None, timestamp, timestamp)]
        case Ok(ToBook(p)) =>
          && toStd(p.symbol) in old(l2Book)
          && l2Book == old(l2Book)[toStd(p.symbol) := UpdatedBook(old(l2Book)[toStd(p.symbol)], p)]
          && events == old(events) + [BookEvent(toStd(p.symbol), l2Book[toStd(p.symbol)], false, Some(Delta(p.bid, p.ask)), timestamp, timestamp)]
        case Ok(ToTrades(p)) =>
          && l2Book == old(l2Book)
          && events == old(events) + TradeEvents(toStd(p.symbol), p.data, normalizeTs)
    {
      if f.params.Some? && f.params.value.sequence.Some? {
        var pair := f.params.value.symbol;
        if pair in seqNo {
          if seqNo[pair] + 1 != f.params.value.sequence.value {
            return Err(MissingSequenceNumber);
          }
        }
        seqNo := seqNo[pair := f.params.value.sequence.value];
      }
      r := RouteOf(f);
      match r
      case Err(_) =>
      case Ok(route) =>
        match route
        case ToTicker(p) => Ticker(p, timestamp);
        case ToSnapshot(p) => Snapshot(p, timestamp);
        case ToBook(p) => UpdateBook(p, timestamp);
        case ToTrades(p) => Trades(p);
        case Dropped =>
    }

    /** The inner loop of `subscribe` for one channel: one request per pair, tagged with the connection's id. */
    method SubscribeChannel(conn: Connection.WSAsyncConn, chan: string, pairs: seq<string>, now: real)
      returns (r: Result<Unit, Connection.Error>)
      modifies conn.base
      ensures var s := old(conn.base.State());
        if Connection.IsOpen(s) || pairs == [] then
          r.Ok? && conn.base.State() == Connection.AfterWsWrites(s, conn.base.id, conn.base.rawCallback, conn.address, now,
                                                               Texts(ChannelRequests(chan, pairs, conn.base.id)))
        else
          r == Err(Connection.ConnectionClosed) && conn.base.State() == s
    {
      ghost var s := conn.base.State();
      var k := 0;
      while k < |pairs|
        invariant 0 <= k <= |pairs|
        invariant !Connection.IsOpen(s) ==> k == 0 && conn.base.State() == s
        invariant Connection.IsOpen(s) ==>
          conn.base.State() == Connection.AfterWsWrites(s, conn.base.id, conn.base.rawCallback, conn.address, now,
                                                       Texts(ChannelRequests(chan, pairs[..k], conn.base.id)))
      {
        ghost var before := Texts(ChannelRequests(chan, pairs[..k], conn.base.id));
        if Connection.IsOpen(s) {
          Connection.WsWritesAppend(s, conn.base.id, conn.base.rawCallback, conn.address, now, before);
        }
        var frame := Dumps(Request(chan, pairs[k], conn.base.id));
        var w := conn.Write(frame, now);
        if w.Err? {
          return Err(w.error);
        }
        assert ChannelRequests(chan, pairs[..k + 1], conn.base.id)
            == ChannelRequests(chan, pairs[..k], conn.base.id) + [Request(chan, pairs[k], conn.base.id)];
        TextsConcat(ChannelRequests(chan, pairs[..k], conn.base.id), [Request(chan, pairs[k], conn.base.id)]);
        assert (before + [frame])[..|before|] == before;
        k := k + 1;
      }
      assert pairs[..k] == pairs;
      r := Ok(Unit);
    }

    /**
     * `subscribe`: writes one request per (channel, pair) entry on the
     * connection, tagged with its id. On a closed connection the first
     * write raises, so nothing is written unless there was nothing to write.
     */
    method Subscribe(conn: Connection.WSAsyncConn, now: real) returns (r: Result<Unit, Connection.Error>)
      modifies conn.base
      ensures var frames := Texts(SubscribeRequests(subscription, conn.base.id));
        var s := old(conn.base.State());
        if Connection.IsOpen(s) || frames == [] then
          r.Ok? && conn.base.State() == Connection.AfterWsWrites(s, conn.base.id, conn.base.rawCallback, conn.address, now, frames)
        else
          r == Err(Connection.ConnectionClosed) && conn.base.State() == s
    {
      ghost var s := conn.base.State();
      ghost var id := conn.base.id;
      var c := 0;
      while c < |subscription|
        invariant 0 <= c <= |subscription|
        invariant !Connection.IsOpen(s) ==> SubscribeRequests(subscription[..c], id) == [] && conn.base.State() == s
        invariant Connection.IsOpen(s) ==>
          conn.base.State() == Connection.AfterWsWrites(s, id, conn.base.rawCallback, conn.address, now,
                                                       Texts(SubscribeRequests(subscription[..c], id)))
      {
        ghost var done := SubscribeRequests(subscription[..c], id);
        if Connection.IsOpen(s) {
          Connection.WsWritesAppend(s, id, conn.base.rawCallback, conn.address, now, Texts(done));
        }
        r := SubscribeChannel(conn, subscription[c].0, subscription[c].1, now);
        if r.Err? {
          SubscribeRequestsPrefix(subscription, c, id);
          return;
        }
        ghost var more := ChannelRequests(subscription[c].0, subscription[c].1, id);
        assert subscription[..c + 1][..c] == subscription[..c];
        assert SubscribeRequests(subscription[..c + 1], id) == done + more;
        TextsConcat(done, more);
        if Connection.IsOpen(s) {
          Connection.WsWritesConcat(s, id, conn.base.rawCallback, conn.address, now, Texts(done), Texts(more));
        }
        c := c + 1;
      }
      assert subscription[..c] == subscription;
      r := Ok(Unit);
    }
  }

  /** Entry `c` of a subscription with pairs means the whole subscription has requests. */
  lemma {:induction false} SubscribeRequestsPrefix(sub: seq<(string, seq<string>)>, c: nat, id: string)
    requires c < |sub| && sub[c].1 != []
    ensures SubscribeRequests(sub, id) != []
  {
    var r := Request(sub[c].0, sub[c].1[0], id);
    SubscribeRequestsExactly(sub, id, r);
  }
}
