/** The risk manager.

    Each check reads the account balance and the positions, keeps a
    high-water mark of the balance and of the drawdown from it, and trips a
    one-way kill switch once the drawdown reaches the configured limit: the
    kill switch closes the positions on the traded symbol with market
    orders, cancels its open orders and calls the bot back. Otherwise it may
    protect profitable positions with a breakeven order and positions whose
    price has doubled (or halved, for a short) with a partial-profit order,
    each at most once per position id. */
module Risk {
  import opened Wrappers
  import opened Numeric
  import opened Port
  import opened Config

  /** A margin ratio above this many percent is reported. */
  const HighMargin: real := 80.0

  datatype RiskMetrics = RiskMetrics(
    currentBalance: real,
    equity: real,
    marginUsed: real,
    unrealizedPnl: real,
    realizedPnl: real,
    maxDrawdown: real,
    currentDrawdown: real,
    marginRatio: real)

  /** The manager's fields: the kill switch, the breakeven and
      partial-profit orders placed so far (position id to order id), the
      highest balance seen, and the largest drawdown seen. */
  datatype RiskState = RiskState(
    killSwitch: bool,
    breakeven: map<int, OrderId>,
    partial: map<int, OrderId>,
    peak: real,
    maxDrawdown: real)

  /** What the manager keeps: neither high-water mark is negative. */
  predicate Invariant(r: RiskState)
  {
    r.peak >= 0.0 && r.maxDrawdown >= 0.0
  }

  // ---------------------------------------------------------------------------
  // The figures

  /** The drawdown from `peak`, in percent; none without a positive peak. */
  function Drawdown(peak: real, balance: real): real
  {
    if peak > 0.0 then (peak - balance) / peak * 100.0 else 0.0
  }

  /** Below its peak the balance has a drawdown between 0 and 100 percent
      (100 only at a zero balance), and none exactly at the peak. */
  lemma DrawdownFacts(peak: real, balance: real)
    requires balance <= peak
    ensures Drawdown(peak, balance) >= 0.0
    ensures balance >= 0.0 ==> Drawdown(peak, balance) <= 100.0
    ensures Drawdown(peak, balance) == 0.0 <==> balance == peak || peak <= 0.0
  {
    if peak > 0.0 {
      var d := peak - balance;
      var q := d / peak;
      assert q * peak == d;
      DivNonNegative(d, peak);
      RatioAbove(d, peak, 1.0);
      if q == 0.0 {
        assert d == 0.0;
      }
    }
  }

  /** With a positive peak, the drawdown reaches `limit` percent exactly when
      the balance has fallen by at least `limit` percent of the peak. */
  lemma DrawdownTrips(peak: real, balance: real, limit: real)
    requires peak > 0.0
    ensures Drawdown(peak, balance) >= limit <==> peak - balance >= limit / 100.0 * peak
  {
    RatioAtLeast(peak - balance, peak, limit / 100.0);
  }

  /** The margin in use as a percentage of the equity; none without a
      positive equity. */
  function MarginRatio(used: real, equity: real): real
  {
    if equity > 0.0 then used / equity * 100.0 else 0.0
  }

  /** The margin ratio is high exactly when more than 80% of a positive
      equity is in use as margin, and never without a positive equity. */
  lemma MarginRatioHigh(used: real, equity: real)
    ensures MarginRatio(used, equity) > HighMargin <==> equity > 0.0 && used > 0.8 * equity
  {
    if equity > 0.0 {
      RatioAbove(used, equity, 0.8);
    }
  }

  /** The position of the first "USDT" entry from `i` on, or the length
      when there is none. */
  function UsdtFrom(coins: seq<Coin>, i: nat): (k: nat)
    requires i <= |coins|
    ensures i <= k <= |coins|
    ensures forall j :: i <= j < k ==> coins[j].coin != "USDT"
    ensures k < |coins| ==> coins[k].coin == "USDT"
    decreases |coins| - i
  {
    if i == |coins| || coins[i].coin == "USDT" then i else UsdtFrom(coins, i + 1)
  }

  /** The wallet balance and equity of the first "USDT" entry; both 0.0
      when there is none. */
  function UsdtFigures(coins: seq<Coin>): (real, real)
  {
    var k := UsdtFrom(coins, 0);
    if k < |coins| then (coins[k].walletBalance, coins[k].equity) else (0.0, 0.0)
  }

  /** The search loop of `get_risk_metrics`, which stops at the first
      "USDT" entry. */
  method FindUsdt(coins: seq<Coin>) returns (balance: real, equity: real)
    ensures (balance, equity) == UsdtFigures(coins)
  {
    balance, equity := 0.0, 0.0;
    var i := 0;
    while i < |coins|
      invariant i <= |coins|
      invariant UsdtFrom(coins, i) == UsdtFrom(coins, 0)
      invariant balance == 0.0 && equity == 0.0
    {
      if coins[i].coin == "USDT" {
        balance := coins[i].walletBalance;
        equity := coins[i].equity;
        break;
      }
      i := i + 1;
    }
  }

  /** The summing loop of `get_risk_metrics`: unrealised PnL, realised PnL
      and initial margin of the positions on `symbol`, in one pass. */
  method SumPositions(ps: seq<Position>, symbol: string) returns (unrealised: real, realised: real, used: real)
    ensures unrealised == Total(ps, symbol, Unrealised)
    ensures realised == Total(ps, symbol, Realised)
    ensures used == Total(ps, symbol, InitialMargin)
  {
    unrealised, realised, used := 0.0, 0.0, 0.0;
    var i := 0;
    while i < |ps|
      invariant 0 <= i <= |ps|
      invariant unrealised == Total(ps[..i], symbol, Unrealised)
      invariant realised == Total(ps[..i], symbol, Realised)
      invariant used == Total(ps[..i], symbol, InitialMargin)
    {
      assert ps[..i + 1][..i] == ps[..i];
      if ps[i].symbol == symbol {
        unrealised := unrealised + ps[i].unrealisedPnl;
        realised := realised + ps[i].cumRealisedPnl;
        used := used + ps[i].positionIM;
      }
      i := i + 1;
    }
    assert ps[..|ps|] == ps;
  }

  /** The manager and the exchange after reading the metrics, and the
      metrics read. */
  datatype Reading = Reading(r: RiskState, port: PortState, metrics: Option<RiskMetrics>)

  /** `get_risk_metrics`: nothing without a balance, or without positions
      (a missing list and an empty one alike); otherwise the figures, after
      raising the high-water marks. */
  function MetricsSpec(r: RiskState, port: PortState, symbol: string): Reading
  {
    var b := port.Balance();
    var port1 := port.AfterBalance();
    if b.None? then Reading(r, port1, None)
    else
      var ps := port1.Positions();
      var port2 := port1.AfterPositions();
      if ps.None? || |ps.value| == 0 then Reading(r, port2, None)
      else
        var (balance, equity) := UsdtFigures(b.value);
        var peak := if balance > r.peak then balance else r.peak;
        var dd := Drawdown(peak, balance);
        var worst := if dd > r.maxDrawdown then dd else r.maxDrawdown;
        var used := Total(ps.value, symbol, InitialMargin);
        Reading(r.(peak := peak, maxDrawdown := worst), port2,
                Some(RiskMetrics(balance, equity, used, Total(ps.value, symbol, Unrealised),
                                 Total(ps.value, symbol, Realised), worst, dd, MarginRatio(used, equity))))
  }

  /** Metrics exist exactly when both a balance and a non-empty position
      list are available. Reading them changes only the high-water marks,
      which never decrease: the peak becomes the larger of itself and the
      balance, and the worst drawdown is at least the current one, which is
      never negative. */
  lemma MetricsFacts(r: RiskState, port: PortState, symbol: string)
    ensures var o := MetricsSpec(r, port, symbol);
      && (o.metrics.None? <==> port.Balance().None? || port.Positions().None? || |port.Positions().value| == 0)
      && (port.Balance().None? ==> o.port == port.AfterBalance())
      && (port.Balance().Some? ==> o.port == port.AfterBalance().AfterPositions())
      && o.r == r.(peak := o.r.peak, maxDrawdown := o.r.maxDrawdown)
      && r.peak <= o.r.peak && r.maxDrawdown <= o.r.maxDrawdown
      && (o.metrics.Some? ==>
            && o.metrics.value.currentBalance == UsdtFigures(port.Balance().value).0
            && o.r.peak == MaxReal(r.peak, o.metrics.value.currentBalance)
            && o.metrics.value.maxDrawdown == o.r.maxDrawdown
            && o.metrics.value.currentDrawdown >= 0.0
            && o.r.maxDrawdown >= o.metrics.value.currentDrawdown
            && o.metrics.value.currentDrawdown == Drawdown(o.r.peak, o.metrics.value.currentBalance))
      && (o.metrics.None? ==> o.r == r)
      && (Invariant(r) ==> Invariant(o.r))
  {
    var o := MetricsSpec(r, port, symbol);
    if o.metrics.Some? {
      DrawdownFacts(o.r.peak, o.metrics.value.currentBalance);
    }
  }

  // ---------------------------------------------------------------------------
  // The kill switch

  /** A position the kill switch closes. */
  predicate Closable(p: Position, symbol: string)
  {
    p.symbol == symbol && p.size > 0.0
  }

  /** The market order that closes `p`. */
  function CloseRequest(p: Position): Request
  {
    Place(Closing(p.side), Market, Abs(p.size), None)
  }

  function CloseRequests(ps: seq<Position>, symbol: string): seq<Request>
  {
    if |ps| == 0 then []
    else CloseRequests(ps[..|ps| - 1], symbol)
         + (if Closable(ps[|ps| - 1], symbol) then [CloseRequest(ps[|ps| - 1])] else [])
  }

  lemma CloseRequestsSnoc(ps: seq<Position>, symbol: string, k: nat)
    requires k < |ps|
    ensures CloseRequests(ps[..k + 1], symbol)
         == CloseRequests(ps[..k], symbol) + (if Closable(ps[k], symbol) then [CloseRequest(ps[k])] else [])
  {
    assert ps[..k + 1][..k] == ps[..k];
  }

  /** Every order the kill switch sends closes a position on the symbol
      with a positive size, by a market order of that size on the other
      side; and it sends none exactly when there is no such position. */
  lemma {:induction false} CloseRequestsFacts(ps: seq<Position>, symbol: string)
    ensures forall q :: q in CloseRequests(ps, symbol) ==>
      q.Place? && q.orderType == Market && q.qty > 0.0 && q.price.None?
      && q in (set p | p in ps && Closable(p, symbol) :: CloseRequest(p))
    ensures CloseRequests(ps, symbol) == [] <==> forall k :: 0 <= k < |ps| ==> !Closable(ps[k], symbol)
  {
    if |ps| > 0 {
      var init := ps[..|ps| - 1];
      CloseRequestsFacts(init, symbol);
      forall q | q in CloseRequests(ps, symbol)
        ensures q in (set p | p in ps && Closable(p, symbol) :: CloseRequest(p))
      {
        if q in CloseRequests(init, symbol) {
          var p :| p in init && Closable(p, symbol) && q == CloseRequest(p);
          assert p in ps;
        } else {
          assert ps[|ps| - 1] in ps;
        }
      }
      if forall k :: 0 <= k < |init| ==> !Closable(init[k], symbol) {
        assert forall k :: 0 <= k < |init| ==> init[k] == ps[k];
      }
    }
  }

  /** The open orders on `symbol`, each cancelled by id. */
  function OrderCancels(oo: seq<OpenOrder>, symbol: string): seq<Request>
  {
    if |oo| == 0 then []
    else OrderCancels(oo[..|oo| - 1], symbol)
         + (if oo[|oo| - 1].symbol == symbol then [Cancel(oo[|oo| - 1].orderId)] else [])
  }

  lemma OrderCancelsSnoc(oo: seq<OpenOrder>, symbol: string, k: nat)
    requires k < |oo|
    ensures OrderCancels(oo[..k + 1], symbol)
         == OrderCancels(oo[..k], symbol) + (if oo[k].symbol == symbol then [Cancel(oo[k].orderId)] else [])
  {
    assert oo[..k + 1][..k] == oo[..k];
  }

  /** Every cancellation the kill switch sends is for an open order on the
      symbol. */
  lemma {:induction false} OrderCancelsFacts(oo: seq<OpenOrder>, symbol: string)
    ensures forall q :: q in OrderCancels(oo, symbol) ==>
      q in (set o | o in oo && o.symbol == symbol :: Cancel(o.orderId))
  {
    if |oo| > 0 {
      var init := oo[..|oo| - 1];
      OrderCancelsFacts(init, symbol);
      forall q | q in OrderCancels(oo, symbol)
        ensures q in (set o | o in oo && o.symbol == symbol :: Cancel(o.orderId))
      {
        if q in OrderCancels(init, symbol) {
          var o :| o in init && o.symbol == symbol && q == Cancel(o.orderId);
          assert o in oo;
        } else {
          assert oo[|oo| - 1] in oo;
        }
      }
    }
  }

  /** The manager and the exchange after the kill switch, and whether the
      bot's callback ran. */
  datatype Kill = Kill(r: RiskState, port: PortState, fired: bool)

  /** `trigger_kill_switch`, with `callback` telling whether a callback was
      set: once only, close the positions, cancel the open orders, call
      back. */
  function KillSpec(r: RiskState, port: PortState, symbol: string, callback: bool): Kill
  {
    if r.killSwitch then Kill(r, port, false)
    else
      var ps := port.Positions();
      var port1 := IssueAll(port.AfterPositions(), CloseRequests(ps.GetOr([]), symbol));
      var oo := port1.OpenOrders();
      var port2 := IssueAll(port1.AfterOpenOrders(), OrderCancels(oo.GetOr([]), symbol));
      Kill(r.(killSwitch := true), port2, callback)
  }

  /** The kill switch is one-way and acts once: afterwards it is set and
      nothing else of the manager has changed; a second trip does nothing;
      the first sends the closing orders and then the cancellations, and
      calls back exactly when a callback is set. */
  lemma KillFacts(r: RiskState, port: PortState, symbol: string, callback: bool)
    ensures var k := KillSpec(r, port, symbol, callback);
      && k.r == r.(killSwitch := true)
      && (r.killSwitch ==> k == Kill(r, port, false))
      && (k.fired <==> !r.killSwitch && callback)
      && (!r.killSwitch ==>
            k.port.sent == port.sent + CloseRequests(port.Positions().GetOr([]), symbol)
                                     + OrderCancels(port.OpenOrders().GetOr([]), symbol))
      && KillSpec(k.r, k.port, symbol, callback) == Kill(k.r, k.port, false)
      && (Invariant(r) ==> Invariant(k.r))
  {
    if !r.killSwitch {
      var ps := port.Positions();
      var cs := CloseRequests(ps.GetOr([]), symbol);
      IssueAllLogs(port.AfterPositions(), cs);
      var port1 := IssueAll(port.AfterPositions(), cs);
      IssueAllLogs(port1.AfterOpenOrders(), OrderCancels(port1.OpenOrders().GetOr([]), symbol));
    }
  }

  // ---------------------------------------------------------------------------
  // Breakeven and partial-profit orders

  datatype Protection = Breakeven | PartialProfit

  /** A long whose mark price has doubled, or a short whose mark price has
      halved. */
  predicate ProfitDoubled(p: Position)
  {
    || (p.side == "Buy" && p.markPrice >= p.avgPrice * 2.0)
    || (p.side == "Sell" && p.markPrice <= p.avgPrice / 2.0)
  }

  /** Whether position `p` calls for a protecting order of `kind`: a
      position on the symbol with a positive size that is in profit, for a
      breakeven order, or whose price has doubled, for a partial-profit
      order. */
  predicate Due(kind: Protection, p: Position, symbol: string)
  {
    && p.symbol == symbol && p.size > 0.0
    && (if kind == Breakeven then p.unrealisedPnl > 0.0 else ProfitDoubled(p))
  }

  /** The protecting order: a limit order for the whole size at the entry
      price, or a market order for `partial_profit_percent` of the size;
      either on the closing side. */
  function ProtectRequest(kind: Protection, p: Position, pct: real): Request
  {
    if kind == Breakeven then Place(Closing(p.side), Limit, Abs(p.size), PriceField(Some(p.avgPrice)))
    else Place(Closing(p.side), Market, p.size * (pct / 100.0), None)
  }

  /** `_place_breakeven_order` / `_place_partial_profit_order`: the order
      is sent and its id recorded under the position's id when accepted. */
  function ProtectStep(kind: Protection, pct: real, m: map<int, OrderId>, p: Position, port: PortState): (map<int, OrderId>, PortState)
  {
    var id := port.PlaceReply();
    (if id.Some? then m[p.positionIdx := id.value] else m, port.Issue(ProtectRequest(kind, p, pct)))
  }

  /** The scan over the first `n` positions: a due position whose id has no
      order recorded yet gets one. */
  function ProtectUpTo(kind: Protection, pct: real, symbol: string, m: map<int, OrderId>,
                       ps: seq<Position>, port: PortState, n: nat): (map<int, OrderId>, PortState)
    requires n <= |ps|
  {
    if n == 0 then (m, port)
    else
      var (m1, p1) := ProtectUpTo(kind, pct, symbol, m, ps, port, n - 1);
      var q := ps[n - 1];
      if Due(kind, q, symbol) && q.positionIdx !in m1 then ProtectStep(kind, pct, m1, q, p1) else (m1, p1)
  }

  /** `_check_breakeven_opportunities` / `_check_partial_profit_opportunities`:
      nothing without positions, otherwise the scan. */
  function ProtectSpec(kind: Protection, pct: real, symbol: string, m: map<int, OrderId>, port: PortState): (map<int, OrderId>, PortState)
  {
    var ps := port.Positions();
    var port1 := port.AfterPositions();
    if ps.None? || |ps.value| == 0 then (m, port1)
    else ProtectUpTo(kind, pct, symbol, m, ps.value, port1, |ps.value|)
  }

  /** The ids of the due positions. */
  function DueIds(kind: Protection, symbol: string, ps: seq<Position>): set<int>
  {
    set j | 0 <= j < |ps| && Due(kind, ps[j], symbol) :: ps[j].positionIdx
  }

  /** The orders due positions call for. */
  function DueRequests(kind: Protection, pct: real, symbol: string, ps: seq<Position>): set<Request>
  {
    set j | 0 <= j < |ps| && Due(kind, ps[j], symbol) :: ProtectRequest(kind, ps[j], pct)
  }

  /** The record of protecting orders only grows: an entry is never removed
      or replaced, and every new entry is for the id of a due position. */
  lemma {:induction false} ProtectUpToBook(kind: Protection, pct: real, symbol: string, m: map<int, OrderId>,
                                           ps: seq<Position>, port: PortState, n: nat)
    requires n <= |ps|
    ensures var b := ProtectUpTo(kind, pct, symbol, m, ps, port, n).0;
      && (forall k :: k in m ==> k in b && b[k] == m[k])
      && (forall k :: k in b && k !in m ==> k in DueIds(kind, symbol, ps))
  {
    if n > 0 {
      ProtectUpToBook(kind, pct, symbol, m, ps, port, n - 1);
      var q := ps[n - 1];
      if Due(kind, q, symbol) {
        assert q.positionIdx in DueIds(kind, symbol, ps);
      }
    }
  }

  /** The scan sends at most one order per position, each the order a due
      position calls for, after what was sent before; and it reads no query
      queue. */
  lemma {:induction false} ProtectUpToSent(kind: Protection, pct: real, symbol: string, m: map<int, OrderId>,
                                           ps: seq<Position>, port: PortState, n: nat)
    requires n <= |ps|
    ensures var p := ProtectUpTo(kind, pct, symbol, m, ps, port, n).1;
      && |port.sent| <= |p.sent| <= |port.sent| + n
      && p.sent[..|port.sent|] == port.sent
      && (forall j :: |port.sent| <= j < |p.sent| ==> p.sent[j] in DueRequests(kind, pct, symbol, ps))
      && p.prices == port.prices && p.openOrders == port.openOrders
      && p.positions == port.positions && p.balances == port.balances
  {
    if n > 0 {
      ProtectUpToSent(kind, pct, symbol, m, ps, port, n - 1);
      var p1 := ProtectUpTo(kind, pct, symbol, m, ps, port, n - 1).1;
      var p := ProtectUpTo(kind, pct, symbol, m, ps, port, n).1;
      var q := ps[n - 1];
      if Due(kind, q, symbol) {
        assert ProtectRequest(kind, q, pct) in DueRequests(kind, pct, symbol, ps);
      }
      assert p.sent[..|port.sent|] == p1.sent[..|port.sent|];
    }
  }

  /** When every due position already has an order recorded, the scan sends
      nothing and records nothing. */
  lemma {:induction false} ProtectQuiet(kind: Protection, pct: real, symbol: string, m: map<int, OrderId>,
                                        ps: seq<Position>, port: PortState, n: nat)
    requires n <= |ps|
    requires forall j :: 0 <= j < |ps| && Due(kind, ps[j], symbol) ==> ps[j].positionIdx in m
    ensures ProtectUpTo(kind, pct, symbol, m, ps, port, n) == (m, port)
  {
    if n > 0 {
      ProtectQuiet(kind, pct, symbol, m, ps, port, n - 1);
    }
  }

  // ---------------------------------------------------------------------------
  // The risk check

  /** The manager and exchange after a check, its answer, and whether the
      kill switch called the bot back. */
  datatype RiskCheck = RiskCheck(r: RiskState, port: PortState, ok: bool, fired: bool)

  /** `check_risk_limits`. A high margin ratio is only reported, and the
      `kill_switch_enabled` setting is not consulted. */
  function CheckRiskSpec(r: RiskState, port: PortState, cfg: RiskConfig, symbol: string, callback: bool): RiskCheck
  {
    if r.killSwitch then RiskCheck(r, port, false, false)
    else
      var rd := MetricsSpec(r, port, symbol);
      if rd.metrics.None? then RiskCheck(rd.r, rd.port, true, false)
      else if rd.metrics.value.currentDrawdown >= cfg.maxDrawdownPercent then
        var k := KillSpec(rd.r, rd.port, symbol, callback);
        RiskCheck(k.r, k.port, false, k.fired)
      else
        var (be, port1) := if cfg.breakevenEnabled then ProtectSpec(Breakeven, cfg.partialProfitPercent, symbol, rd.r.breakeven, rd.port)
                           else (rd.r.breakeven, rd.port);
        var (pp, port2) := if cfg.partialProfitEnabled then ProtectSpec(PartialProfit, cfg.partialProfitPercent, symbol, rd.r.partial, port1)
                           else (rd.r.partial, port1);
        RiskCheck(rd.r.(breakeven := be, partial := pp), port2, true, false)
  }

  /** A check fails exactly when the kill switch was already set or the
      drawdown has reached the limit, and the kill switch is set after every
      failing check and after none that passes. The bot is called back only
      by the check that trips the switch. The high-water marks never
      decrease and the order records only grow. */
  lemma CheckRiskFacts(r: RiskState, port: PortState, cfg: RiskConfig, symbol: string, callback: bool)
    ensures var c := CheckRiskSpec(r, port, cfg, symbol, callback);
      var rd := MetricsSpec(r, port, symbol);
      && (r.killSwitch ==> c == RiskCheck(r, port, false, false))
      && (c.ok <==> !r.killSwitch && (rd.metrics.None? || rd.metrics.value.currentDrawdown < cfg.maxDrawdownPercent))
      && (c.ok <==> !c.r.killSwitch)
      && (c.fired ==> callback && !r.killSwitch && !c.ok)
      && r.peak <= c.r.peak && r.maxDrawdown <= c.r.maxDrawdown
      && (forall k :: k in r.breakeven ==> k in c.r.breakeven && c.r.breakeven[k] == r.breakeven[k])
      && (forall k :: k in r.partial ==> k in c.r.partial && c.r.partial[k] == r.partial[k])
      && (Invariant(r) ==> Invariant(c.r))
  {
    if !r.killSwitch {
      MetricsFacts(r, port, symbol);
      var rd := MetricsSpec(r, port, symbol);
      if rd.metrics.Some? {
        if rd.metrics.value.currentDrawdown >= cfg.maxDrawdownPercent {
          KillFacts(rd.r, rd.port, symbol, callback);
        } else {
          ProtectSpecBook(Breakeven, cfg.partialProfitPercent, symbol, rd.r.breakeven, rd.port);
          var port1 := if cfg.breakevenEnabled then ProtectSpec(Breakeven, cfg.partialProfitPercent, symbol, rd.r.breakeven, rd.port).1 else rd.port;
          ProtectSpecBook(PartialProfit, cfg.partialProfitPercent, symbol, rd.r.partial, port1);
        }
      }
    }
  }

  lemma ProtectSpecBook(kind: Protection, pct: real, symbol: string, m: map<int, OrderId>, port: PortState)
    ensures var b := ProtectSpec(kind, pct, symbol, m, port).0;
      forall k :: k in m ==> k in b && b[k] == m[k]
  {
    var ps := port.Positions();
    if ps.Some? && |ps.value| > 0 {
      ProtectUpToBook(kind, pct, symbol, m, ps.value, port.AfterPositions(), |ps.value|);
    }
  }

  /** The `kill_switch_enabled` setting makes no difference to a check. */
  lemma KillSwitchSettingIgnored(r: RiskState, port: PortState, cfg: RiskConfig, symbol: string, callback: bool)
    ensures CheckRiskSpec(r, port, cfg, symbol, callback)
         == CheckRiskSpec(r, port, cfg.(killSwitchEnabled := !cfg.killSwitchEnabled), symbol, callback)
  {
  }

  // ---------------------------------------------------------------------------
  // The manager

  /** The risk manager: its kill switch, order records and high-water marks
      are updated in place by each operation, exactly as the corresponding
      function of this module says. `killCallback` tells whether the bot has
      registered its kill-switch callback; an operation that would call it
      says so in its `fired` answer. */
  class RiskManager {
    const client: Exchange
    const cfg: RiskConfig
    const symbol: string

    var killSwitch: bool
    var breakeven: map<int, OrderId>
    var partial: map<int, OrderId>
    var peak: real
    var maxDrawdown: real
    var killCallback: bool

    ghost predicate Valid()
      reads this
    {
      Invariant(State())
    }

    function State(): RiskState
      reads this
    {
      RiskState(killSwitch, breakeven, partial, peak, maxDrawdown)
    }

    constructor (client: Exchange, cfg: RiskConfig, symbol: string)
      ensures Valid()
      ensures this.client == client && this.cfg == cfg && this.symbol == symbol
      ensures State() == RiskState(false, map[], map[], 0.0, 0.0) && !killCallback
    {
      this.client := client;
      this.cfg := cfg;
      this.symbol := symbol;
      killSwitch := false;
      breakeven := map[];
      partial := map[];
      peak := 0.0;
      maxDrawdown := 0.0;
      killCallback := false;
    }

    method SetKillSwitchCallback()
      modifies this
      ensures killCallback && State() == old(State())
    {
      killCallback := true;
    }

    method GetRiskMetrics() returns (m: Option<RiskMetrics>)
      requires Valid()
      modifies this, client
      ensures Valid()
      ensures Reading(State(), client.st, m) == MetricsSpec(old(State()), old(client.st), symbol)
      ensures killCallback == old(killCallback)
    {
      MetricsFacts(State(), client.st, symbol);
      var b := client.GetAccountBalance();
      if b.None? {
        return None;
      }
      var ps := client.GetPositions();
      if ps.None? || |ps.value| == 0 {
        return None;
      }
      var balance, equity := FindUsdt(b.value);
      var unrealised, realised, used := SumPositions(ps.value, symbol);
      if balance > peak {
        peak := balance;
      }
      var dd := Drawdown(peak, balance);
      if dd > maxDrawdown {
        maxDrawdown := dd;
      }
      m := Some(RiskMetrics(balance, equity, used, unrealised, realised, maxDrawdown, dd, MarginRatio(used, equity)));
    }

    method CheckRiskLimits() returns (ok: bool, fired: bool)
      requires Valid()
      modifies this, client
      ensures Valid()
      ensures RiskCheck(State(), client.st, ok, fired) == CheckRiskSpec(old(State()), old(client.st), cfg, symbol, killCallback)
      ensures killCallback == old(killCallback)
    {
      CheckRiskFacts(State(), client.st, cfg, symbol, killCallback);
      if killSwitch {
        return false, false;
      }
      var metrics := GetRiskMetrics();
      if metrics.None? {
        return true, false;
      }
      if metrics.value.currentDrawdown >= cfg.maxDrawdownPercent {
        fired := TriggerKillSwitch();
        return false, fired;
      }
      if cfg.breakevenEnabled {
        CheckBreakevenOpportunities();
      }
      if cfg.partialProfitEnabled {
        CheckPartialProfitOpportunities();
      }
      return true, false;
    }

    method TriggerKillSwitch() returns (fired: bool)
      requires Valid()
      modifies this, client
      ensures Valid()
      ensures Kill(State(), client.st, fired) == KillSpec(old(State()), old(client.st), symbol, killCallback)
      ensures killCallback == old(killCallback)
    {
      if killSwitch {
        return false;
      }
      killSwitch := true;
      var ps := client.GetPositions();
      if ps.Some? && |ps.value| > 0 {
        ClosePositions(ps.value);
      }
      var oo := client.GetOpenOrders();
      if oo.Some? && |oo.value| > 0 {
        CancelOrders(oo.value);
      }
      fired := killCallback;
    }

    /** The closing loop of `trigger_kill_switch`. */
    method ClosePositions(ps: seq<Position>)
      modifies client
      ensures client.st == IssueAll(old(client.st), CloseRequests(ps, symbol))
    {
      var i := 0;
      while i < |ps|
        invariant 0 <= i <= |ps|
        invariant client.st == IssueAll(old(client.st), CloseRequests(ps[..i], symbol))
      {
        CloseRequestsSnoc(ps, symbol, i);
        var p := ps[i];
        if Closable(p, symbol) {
          IssueAllSnoc(old(client.st), CloseRequests(ps[..i], symbol), CloseRequest(p));
          var _ := client.PlaceOrder(Closing(p.side), Market, Abs(p.size), None);
        } else {
          assert CloseRequests(ps[..i], symbol) + [] == CloseRequests(ps[..i], symbol);
        }
        i := i + 1;
      }
      assert ps[..|ps|] == ps;
    }

    /** The cancelling loop of `trigger_kill_switch`. */
    method CancelOrders(oo: seq<OpenOrder>)
      modifies client
      ensures client.st == IssueAll(old(client.st), OrderCancels(oo, symbol))
    {
      var i := 0;
      while i < |oo|
        invariant 0 <= i <= |oo|
        invariant client.st == IssueAll(old(client.st), OrderCancels(oo[..i], symbol))
      {
        OrderCancelsSnoc(oo, symbol, i);
        var o := oo[i];
        if o.symbol == symbol {
          IssueAllSnoc(old(client.st), OrderCancels(oo[..i], symbol), Cancel(o.orderId));
          var _ := client.CancelOrder(o.orderId);
        } else {
          assert OrderCancels(oo[..i], symbol) + [] == OrderCancels(oo[..i], symbol);
        }
        i := i + 1;
      }
      assert oo[..|oo|] == oo;
    }

    method CheckBreakevenOpportunities()
      modifies this, client
      ensures (breakeven, client.st) == ProtectSpec(Breakeven, cfg.partialProfitPercent, symbol, old(breakeven), old(client.st))
      ensures State() == old(State()).(breakeven := breakeven) && killCallback == old(killCallback)
    {
      var ps := client.GetPositions();
      if ps.None? || |ps.value| == 0 {
        return;
      }
      var i := 0;
      while i < |ps.value|
        invariant i <= |ps.value|
        invariant (breakeven, client.st)
               == ProtectUpTo(Breakeven, cfg.partialProfitPercent, symbol, old(breakeven), ps.value, old(client.st).AfterPositions(), i)
        invariant State() == old(State()).(breakeven := breakeven) && killCallback == old(killCallback)
      {
        var p := ps.value[i];
        if p.symbol == symbol && p.size > 0.0 {
          if p.unrealisedPnl > 0.0 && p.positionIdx !in breakeven {
            PlaceBreakevenOrder(p);
          }
        }
        i := i + 1;
      }
    }

    method PlaceBreakevenOrder(p: Position)
      modifies this, client
      ensures (breakeven, client.st) == ProtectStep(Breakeven, cfg.partialProfitPercent, old(breakeven), p, old(client.st))
      ensures State() == old(State()).(breakeven := breakeven) && killCallback == old(killCallback)
    {
      var id := client.PlaceOrder(Closing(p.side), Limit, Abs(p.size), Some(p.avgPrice));
      if id.Some? {
        breakeven := breakeven[p.positionIdx := id.value];
      }
    }

    method CheckPartialProfitOpportunities()
      modifies this, client
      ensures (partial, client.st) == ProtectSpec(PartialProfit, cfg.partialProfitPercent, symbol, old(partial), old(client.st))
      ensures State() == old(State()).(partial := partial) && killCallback == old(killCallback)
    {
      var ps := client.GetPositions();
      if ps.None? || |ps.value| == 0 {
        return;
      }
      var i := 0;
      while i < |ps.value|
        invariant i <= |ps.value|
        invariant (partial, client.st)
               == ProtectUpTo(PartialProfit, cfg.partialProfitPercent, symbol, old(partial), ps.value, old(client.st).AfterPositions(), i)
        invariant State() == old(State()).(partial := partial) && killCallback == old(killCallback)
      {
        var p := ps.value[i];
        if p.symbol == symbol && p.size > 0.0 {
          if ProfitDoubled(p) && p.positionIdx !in partial {
            PlacePartialProfitOrder(p);
          }
        }
        i := i + 1;
      }
    }

    method PlacePartialProfitOrder(p: Position)
      modifies this, client
      ensures (partial, client.st) == ProtectStep(PartialProfit, cfg.partialProfitPercent, old(partial), p, old(client.st))
      ensures State() == old(State()).(partial := partial) && killCallback == old(killCallback)
    {
      var size := p.size * (cfg.partialProfitPercent / 100.0);
      assert ProtectRequest(PartialProfit, p, cfg.partialProfitPercent) == Place(Closing(p.side), Market, size, None);
      var id := client.PlaceOrder(Closing(p.side), Market, size, None);
      if id.Some? {
        partial := partial[p.positionIdx := id.value];
      }
    }

    /** `reset_kill_switch`: the only way the kill switch is cleared. */
    method ResetKillSwitch()
      requires Valid()
      modifies this
      ensures Valid()
      ensures State() == old(State()).(killSwitch := false) && killCallback == old(killCallback)
    {
      killSwitch := false;
    }

    predicate IsKillSwitchTriggered()
      reads this
    {
      killSwitch
    }
  }
}
