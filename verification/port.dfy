/** The exchange as an abstract port.

    The bot talks to the exchange only through a client whose every call
    catches its own errors and answers "unavailable" (None, or false) instead
    of raising. The port is modelled as a script of replies: one queue per kind
    of query, consumed front first, plus a log of every request that changes
    something on the exchange (placing an order, cancelling one, setting the
    leverage). A call whose queue is exhausted gets the "unavailable" answer. */
module Port {
  import opened Wrappers

  datatype Side = Buy | Sell

  function Opposite(s: Side): (o: Side)
    ensures o != s
  {
    if s == Buy then Sell else Buy
  }

  /** The side of the order that closes a position reported on `positionSide`:
      "Sell" for a "Buy" position and "Buy" for anything else. */
  function Closing(positionSide: string): (s: Side)
    ensures s == Sell <==> positionSide == "Buy"
  {
    if positionSide == "Buy" then Sell else Buy
  }

  datatype OrderType = Limit | Market

  /** An order id the bot can hold. An empty id reads as false in the source,
      so a reply carrying one is the same as no reply. */
  type OrderId = s: string | |s| > 0 witness "0"

  datatype OpenOrder = OpenOrder(orderId: string, symbol: string)

  datatype Position = Position(
    symbol: string,
    side: string,
    size: real,
    avgPrice: real,
    markPrice: real,
    unrealisedPnl: real,
    cumRealisedPnl: real,
    positionIM: real,
    positionIdx: int)

  /** One entry of the account's coin list; `usedMargin` is None when the
      entry carries no such figure. */
  datatype Coin = Coin(coin: string, walletBalance: real, equity: real, usedMargin: Option<real>)

  datatype Request =
    | Place(side: Side, orderType: OrderType, qty: real, price: Option<real>)
    | Cancel(orderId: string)
    | Leverage(leverage: int)

  /** The price field `place_order` sends: a price goes out only when it
      reads as true, so a price of 0.0 is sent as no price at all. */
  function PriceField(price: Option<real>): (f: Option<real>)
    ensures f.Some? <==> price.Some? && price.value != 0.0
    ensures f.Some? ==> f == price
  {
    if price.Some? && price.value != 0.0 then price else None
  }

  function Front<T>(q: seq<Option<T>>): (r: Option<T>)
    ensures r.Some? ==> |q| > 0 && q[0] == r
  {
    if |q| == 0 then None else q[0]
  }

  function FrontFlag(q: seq<bool>): (b: bool)
    ensures b ==> |q| > 0 && q[0]
  {
    if |q| == 0 then false else q[0]
  }

  function Drop<T>(q: seq<T>): (r: seq<T>)
    ensures |r| == if |q| == 0 then 0 else |q| - 1
  {
    if |q| == 0 then [] else q[1..]
  }

  /** The `j`-th reply still queued (counting from 0), or "unavailable". */
  function Nth<T>(q: seq<Option<T>>, j: nat): (r: Option<T>)
    ensures r.Some? ==> j < |q| && q[j] == r
  {
    if j < |q| then q[j] else None
  }

  function NthFlag(q: seq<bool>, j: nat): (b: bool)
    ensures b ==> j < |q| && q[j]
  {
    if j < |q| then q[j] else false
  }

  /** The queue after its first `u` replies were consumed. */
  function Skip<T>(q: seq<T>, u: nat): (r: seq<T>)
    ensures |r| <= |q|
  {
    if u <= |q| then q[u..] else []
  }

  lemma SkipNext<T>(q: seq<Option<T>>, u: nat)
    ensures Drop(Skip(q, u)) == Skip(q, u + 1)
    ensures Front(Skip(q, u)) == Nth(q, u)
  {
  }

  lemma SkipNextFlag(q: seq<bool>, u: nat)
    ensures Drop(Skip(q, u)) == Skip(q, u + 1)
    ensures FrontFlag(Skip(q, u)) == NthFlag(q, u)
  {
  }

  /** Everything the exchange will still answer, and everything it was sent. */
  datatype PortState = PortState(
    prices: seq<Option<real>>,
    openOrders: seq<Option<seq<OpenOrder>>>,
    positions: seq<Option<seq<Position>>>,
    balances: seq<Option<seq<Coin>>>,
    placeReplies: seq<Option<OrderId>>,
    cancelReplies: seq<bool>,
    leverageReplies: seq<bool>,
    connectReplies: seq<bool>,
    connected: bool,
    sent: seq<Request>)
  {
    function Price(): Option<real> { Front(prices) }
    function AfterPrice(): PortState { this.(prices := Drop(prices)) }

    function OpenOrders(): Option<seq<OpenOrder>> { Front(openOrders) }
    function AfterOpenOrders(): PortState { this.(openOrders := Drop(openOrders)) }

    function Positions(): Option<seq<Position>> { Front(positions) }
    function AfterPositions(): PortState { this.(positions := Drop(positions)) }

    function Balance(): Option<seq<Coin>> { Front(balances) }
    function AfterBalance(): PortState { this.(balances := Drop(balances)) }

    function ConnectReply(): bool { FrontFlag(connectReplies) }
    function AfterConnect(): PortState {
      this.(connectReplies := Drop(connectReplies), connected := connected || FrontFlag(connectReplies))
    }

    /** The reply a request gets: an order id for a placement, a flag otherwise. */
    function PlaceReply(): Option<OrderId> { Front(placeReplies) }
    function CancelReply(): bool { FrontFlag(cancelReplies) }
    function LeverageReply(): bool { FrontFlag(leverageReplies) }

    /** The port after it received `r`: `r` is logged and its reply consumed. */
    function Issue(r: Request): (st: PortState)
      ensures st.sent == sent + [r]
      ensures st.prices == prices && st.openOrders == openOrders
      ensures st.positions == positions && st.balances == balances
      ensures st.connected == connected && st.connectReplies == connectReplies
      ensures |st.placeReplies| <= |placeReplies|
      ensures st.placeReplies == if r.Place? then Drop(placeReplies) else placeReplies
      ensures st.cancelReplies == if r.Cancel? then Drop(cancelReplies) else cancelReplies
    {
      match r
      case Place(_, _, _, _) => this.(placeReplies := Drop(placeReplies), sent := sent + [r])
      case Cancel(_) => this.(cancelReplies := Drop(cancelReplies), sent := sent + [r])
      case Leverage(_) => this.(leverageReplies := Drop(leverageReplies), sent := sent + [r])
    }
  }

  /** The port after it received every request of `rs`, in order. */
  function IssueAll(st: PortState, rs: seq<Request>): PortState
  {
    if |rs| == 0 then st else IssueAll(st, rs[..|rs| - 1]).Issue(rs[|rs| - 1])
  }

  /** Issuing a batch of requests logs exactly that batch, after what was sent
      before, and leaves every query queue alone. */
  lemma {:induction false} IssueAllLogs(st: PortState, rs: seq<Request>)
    ensures IssueAll(st, rs).sent == st.sent + rs
    ensures IssueAll(st, rs).prices == st.prices
    ensures IssueAll(st, rs).openOrders == st.openOrders
    ensures IssueAll(st, rs).positions == st.positions
    ensures IssueAll(st, rs).connected == st.connected
  {
    if |rs| > 0 {
      IssueAllLogs(st, rs[..|rs| - 1]);
      assert rs[..|rs| - 1] + [rs[|rs| - 1]] == rs;
    }
  }

  lemma IssueAllSnoc(st: PortState, rs: seq<Request>, r: Request)
    ensures IssueAll(st, rs + [r]) == IssueAll(st, rs).Issue(r)
  {
    assert (rs + [r])[..|rs + [r]| - 1] == rs;
  }

  /** Sending one request and then a batch is sending the longer batch. */
  lemma {:induction false} IssueAllCons(st: PortState, r: Request, rs: seq<Request>)
    ensures IssueAll(st.Issue(r), rs) == IssueAll(st, [r] + rs)
  {
    if |rs| == 0 {
      assert IssueAll(st, [r]) == IssueAll(st, []).Issue(r);
    } else {
      var rs' := rs[..|rs| - 1];
      IssueAllCons(st, r, rs');
      assert ([r] + rs)[..|[r] + rs| - 1] == [r] + rs';
    }
  }

  /** Python's `if not price`: a missing price and a zero price both read as
      unavailable. */
  function Quote(p: Option<real>): (q: Option<real>)
    ensures q.Some? <==> p.Some? && p.value != 0.0
    ensures q.Some? ==> q == p
  {
    if p.Some? && p.value != 0.0 then p else None
  }

  /** The value a field assigned from a price reply holds, where None and 0.0
      both read as "no price". */
  function PriceOrZero(p: Option<real>): (r: real)
    ensures r != 0.0 <==> Quote(p).Some?
  {
    if p.Some? then p.value else 0.0
  }

  /** Python's `if not open_orders`: a missing list and an empty list both
      mean "nothing to reconcile against". */
  function Snapshot(oo: Option<seq<OpenOrder>>): (ids: Option<set<string>>)
    ensures ids.Some? <==> oo.Some? && |oo.value| > 0
    ensures ids.Some? ==> forall o :: o in oo.value ==> o.orderId in ids.value
    ensures ids.Some? ==> forall id :: id in ids.value ==> exists o :: o in oo.value && o.orderId == id
  {
    if oo.Some? && |oo.value| > 0 then Some(set o | o in oo.value :: o.orderId) else None
  }

  /** The fields of a position the bot adds up. */
  function Unrealised(p: Position): real { p.unrealisedPnl }
  function Realised(p: Position): real { p.cumRealisedPnl }
  function InitialMargin(p: Position): real { p.positionIM }

  /** `f` summed over the positions on `symbol`. */
  function Total(ps: seq<Position>, symbol: string, f: Position -> real): real
  {
    if |ps| == 0 then 0.0
    else Total(ps[..|ps| - 1], symbol, f)
         + (if ps[|ps| - 1].symbol == symbol then f(ps[|ps| - 1]) else 0.0)
  }

  /** The unrealised PnL summed over the positions on `symbol`. */
  function UnrealisedPnl(ps: seq<Position>, symbol: string): real
  {
    Total(ps, symbol, Unrealised)
  }

  /** The sum splits over a concatenation, and positions on other symbols
      contribute nothing. */
  lemma {:induction false} TotalAppend(a: seq<Position>, b: seq<Position>, symbol: string, f: Position -> real)
    ensures Total(a + b, symbol, f) == Total(a, symbol, f) + Total(b, symbol, f)
    decreases |b|
  {
    if |b| == 0 {
      assert a + b == a;
    } else {
      var b' := b[..|b| - 1];
      assert (a + b)[..|a + b| - 1] == a + b';
      TotalAppend(a, b', symbol, f);
    }
  }

  lemma {:induction false} TotalOthers(ps: seq<Position>, symbol: string, f: Position -> real)
    requires forall k :: 0 <= k < |ps| ==> ps[k].symbol != symbol
    ensures Total(ps, symbol, f) == 0.0
  {
    if |ps| > 0 {
      TotalOthers(ps[..|ps| - 1], symbol, f);
    }
  }

  /** The summing loop behind `get_grid_pnl`, `get_dca_pnl` and the risk
      metrics. */
  method SumOn(ps: seq<Position>, symbol: string, f: Position -> real) returns (total: real)
    ensures total == Total(ps, symbol, f)
  {
    total := 0.0;
    var i := 0;
    while i < |ps|
      invariant 0 <= i <= |ps|
      invariant total == Total(ps[..i], symbol, f)
    {
      assert ps[..i + 1][..i] == ps[..i];
      if ps[i].symbol == symbol {
        total := total + f(ps[i]);
      }
      i := i + 1;
    }
    assert ps[..|ps|] == ps;
  }

  /** The exchange client. Its state is the script of its remaining replies
      and the log of what it was sent. */
  class Exchange {
    var st: PortState

    constructor (script: PortState)
      ensures st == script
    {
      st := script;
    }

    method Connect() returns (ok: bool)
      modifies this
      ensures ok == old(st).ConnectReply() && st == old(st).AfterConnect()
    {
      ok := st.ConnectReply();
      st := st.AfterConnect();
    }

    method Disconnect()
      modifies this
      ensures st == old(st).(connected := false)
    {
      st := st.(connected := false);
    }

    function IsConnected(): bool
      reads this
    {
      st.connected
    }

    method GetCurrentPrice() returns (p: Option<real>)
      modifies this
      ensures p == old(st).Price() && st == old(st).AfterPrice()
    {
      p := st.Price();
      st := st.AfterPrice();
    }

    method GetOpenOrders() returns (oo: Option<seq<OpenOrder>>)
      modifies this
      ensures oo == old(st).OpenOrders() && st == old(st).AfterOpenOrders()
    {
      oo := st.OpenOrders();
      st := st.AfterOpenOrders();
    }

    method GetPositions() returns (ps: Option<seq<Position>>)
      modifies this
      ensures ps == old(st).Positions() && st == old(st).AfterPositions()
    {
      ps := st.Positions();
      st := st.AfterPositions();
    }

    method GetAccountBalance() returns (b: Option<seq<Coin>>)
      modifies this
      ensures b == old(st).Balance() && st == old(st).AfterBalance()
    {
      b := st.Balance();
      st := st.AfterBalance();
    }

    method PlaceOrder(side: Side, orderType: OrderType, qty: real, price: Option<real>) returns (id: Option<OrderId>)
      modifies this
      ensures id == old(st).PlaceReply()
      ensures st == old(st).Issue(Place(side, orderType, qty, PriceField(price)))
    {
      id := st.PlaceReply();
      st := st.Issue(Place(side, orderType, qty, PriceField(price)));
    }

    method CancelOrder(orderId: string) returns (ok: bool)
      modifies this
      ensures ok == old(st).CancelReply()
      ensures st == old(st).Issue(Cancel(orderId))
    {
      ok := st.CancelReply();
      st := st.Issue(Cancel(orderId));
    }

    method SetLeverage(leverage: int) returns (ok: bool)
      modifies this
      ensures ok == old(st).LeverageReply()
      ensures st == old(st).Issue(Leverage(leverage))
    {
      ok := st.LeverageReply();
      st := st.Issue(Leverage(leverage));
    }
  }
}
