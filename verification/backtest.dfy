/** The backtest's bookkeeping.

    A run resets the balance and the trade list, simulates grid trades over
    the closing prices (at most one per bar, at the first grid level within
    tolerance), then DCA trades on large enough price moves, and tallies the
    trades. Every simulated trade is skipped when its margin exceeds half the
    balance, pays a trading and a funding fee, and loses at most 80% of its
    margin. The random draws come from a given stream. */
module Backtest {
  import opened Wrappers
  import opened Numeric
  import opened Port
  import opened Config

  /** One bar of the loaded data: its time stamp and closing price. */
  datatype Bar = Bar(timestamp: int, close: real)

  datatype TradeKind = GridTrade | DcaTrade

  datatype Trade = Trade(
    time: int,
    entryPrice: real,
    exitPrice: real,
    side: Side,
    quantity: real,
    pnl: real,
    kind: TradeKind)

  /** `random.uniform(a, b)` from one draw `u` of `random.random()`. */
  function Uniform(a: real, b: real, u: real): real
  {
    a + (b - a) * u
  }

  lemma UniformRange(a: real, b: real, u: real)
    requires a <= b && 0.0 <= u < 1.0
    ensures a <= Uniform(a, b, u) <= b
  {
    MulNonNegativeBoth(b - a, u);
    assert (b - a) * (1.0 - u) >= 0.0 by { MulNonNegativeBoth(b - a, 1.0 - u); }
  }

  // ---------------------------------------------------------------------------
  // One trade

  /** The loss a trade is limited to: a liquidation costs 80% of the margin. */
  function Liquidation(net: real, margin: real): (r: real)
    ensures r >= -(margin * 0.8)
    ensures r == net || r == -(margin * 0.8)
    ensures net >= -(margin * 0.8) ==> r == net
  {
    if net < -(margin * 0.8) then -(margin * 0.8) else net
  }

  /** The net result of a trade: the gross result less a 0.1% trading fee
      and a 0.01% funding fee on its cost, limited by the liquidation. */
  function NetPnl(gross: real, cost: real, margin: real): real
  {
    Liquidation(gross - cost * 0.001 - cost * 0.0001, margin)
  }

  /** Whether a trade of this margin is skipped: it needs more than half the
      balance. */
  predicate TooLarge(margin: real, balance: real)
  {
    margin > balance * 0.5
  }

  /** The trades so far, the balance, the running PnL total and the number
      of random draws used. */
  datatype Sim = Sim(trades: seq<Trade>, balance: real, totalPnl: real, draws: nat)

  /** A recorded trade: appended, and its result added to the balance and
      to the total. */
  function Record(s: Sim, t: Trade): Sim
  {
    Sim(s.trades + [t], s.balance + t.pnl, s.totalPnl + t.pnl, s.draws)
  }

  /** The exit price of a grid trade: a win moves 0.5-2.0% in the trade's
      favour, a loss 0.2-0.5% against it. */
  function GridExit(side: Side, price: real, win: bool, u: real): real
  {
    if side == Buy then
      if win then price * (1.0 + Uniform(0.005, 0.020, u)) else price * (1.0 - Uniform(0.002, 0.005, u))
    else
      if win then price * (1.0 - Uniform(0.005, 0.020, u)) else price * (1.0 + Uniform(0.002, 0.005, u))
  }

  /** The trade `_simulate_grid_trade` records at `price` near grid level
      `level`, with balance `balance` and the draws from `draws` on, or None
      when it records nothing. Dividing by a zero leverage raises, and the
      handler records nothing; with no configured levels the spacing
      division fails; with equal configured bounds the win rate is not a
      number or minus infinity, so the trade always takes the losing
      branch. */
  function GridTradeFor(cfg: BotConfig, rand: nat -> real, draws: nat, balance: real, time: int, price: real, level: real): Option<Trade>
  {
    var size := cfg.grid.orderSize;
    var cost := price * size;
    if cfg.trading.leverage == 0 then None
    else
      var margin := cost / cfg.trading.leverage as real;
      if TooLarge(margin, balance) || cfg.grid.levels == 0 then None
      else
        var spacing := Abs(cfg.grid.upperPrice - cfg.grid.lowerPrice) / cfg.grid.levels as real;
        var side := if price < level then Buy else Sell;
        var win := spacing != 0.0 && rand(draws) < 0.45 + (1.0 - Abs(price - level) / spacing) * 0.25;
        var exit := GridExit(side, price, win, rand(draws + 1));
        var gross := if side == Buy then (exit - price) * size else (price - exit) * size;
        Some(Trade(time, price, exit, side, size, NetPnl(gross, cost, margin), GridTrade))
  }

  /** `_simulate_grid_trade`: two draws are used when a trade is made. */
  function GridTradeSpec(s: Sim, cfg: BotConfig, rand: nat -> real, time: int, price: real, level: real): Sim
  {
    match GridTradeFor(cfg, rand, s.draws, s.balance, time, price, level)
    case None => s
    case Some(t) => Record(s.(draws := s.draws + 2), t)
  }

  /** The trade `_simulate_dca_trade` records at `price`, or None: always a
      Buy; the first draw sets the win rate between 46% and 54%, the second
      decides, the third sets the exit, 0.8-2.5% up on a win and 0.2-0.8%
      down on a loss. */
  function DcaTradeFor(cfg: BotConfig, rand: nat -> real, draws: nat, balance: real, time: int, price: real): Option<Trade>
  {
    var size := cfg.dca.orderSize;
    var cost := price * size;
    if cfg.trading.leverage == 0 then None
    else
      var margin := cost / cfg.trading.leverage as real;
      if TooLarge(margin, balance) then None
      else
        var winRate := 0.40 + Uniform(0.3, 0.7, rand(draws)) * 0.20;
        var exit := if rand(draws + 1) < winRate then price * (1.0 + Uniform(0.008, 0.025, rand(draws + 2)))
                    else price * (1.0 - Uniform(0.002, 0.008, rand(draws + 2)));
        Some(Trade(time, price, exit, Buy, size, NetPnl((exit - price) * size, cost, margin), DcaTrade))
  }

  /** `_simulate_dca_trade`: three draws are used when a trade is made. */
  function DcaTradeSpec(s: Sim, cfg: BotConfig, rand: nat -> real, time: int, price: real): Sim
  {
    match DcaTradeFor(cfg, rand, s.draws, s.balance, time, price)
    case None => s
    case Some(t) => Record(s.(draws := s.draws + 3), t)
  }

  /** The sum of the trades' results. */
  function SumPnl(ts: seq<Trade>): real
  {
    if |ts| == 0 then 0.0 else SumPnl(ts[..|ts| - 1]) + ts[|ts| - 1].pnl
  }

  lemma {:induction false} SumPnlAppend(a: seq<Trade>, b: seq<Trade>)
    ensures SumPnl(a + b) == SumPnl(a) + SumPnl(b)
    decreases |b|
  {
    if |b| > 0 {
      SumPnlAppend(a, b[..|b| - 1]);
      assert (a + b)[..|a + b| - 1] == a + b[..|b| - 1];
    } else {
      assert a + b == a;
    }
  }

  /** A trade of kind `kind` whose result is no worse than the liquidation
      loss of its margin at leverage `leverage`. */
  predicate Clamped(t: Trade, kind: TradeKind, leverage: int)
  {
    && t.kind == kind && leverage != 0
    && t.pnl >= -(t.entryPrice * t.quantity / leverage as real * 0.8)
  }

  /** `r` continues `s`: the earlier trades are kept, the new ones are of
      `kind` and limited by the liquidation, and their results have been
      added to both the balance and the total. */
  predicate Accumulates(s: Sim, r: Sim, kind: TradeKind, leverage: int)
  {
    && |s.trades| <= |r.trades| && r.trades[..|s.trades|] == s.trades
    && (forall j :: |s.trades| <= j < |r.trades| ==> Clamped(r.trades[j], kind, leverage))
    && r.balance == s.balance + SumPnl(r.trades[|s.trades|..])
    && r.totalPnl == s.totalPnl + SumPnl(r.trades[|s.trades|..])
    && s.draws <= r.draws
  }

  lemma AccumulatesRefl(s: Sim, kind: TradeKind, leverage: int)
    ensures Accumulates(s, s, kind, leverage)
  {
    assert s.trades[|s.trades|..] == [];
  }

  lemma AccumulatesTrans(a: Sim, b: Sim, c: Sim, kind: TradeKind, leverage: int)
    requires Accumulates(a, b, kind, leverage) && Accumulates(b, c, kind, leverage)
    ensures Accumulates(a, c, kind, leverage)
  {
    var x := b.trades[|a.trades|..];
    var y := c.trades[|b.trades|..];
    assert c.trades[..|b.trades|] == b.trades;
    assert c.trades[|a.trades|..] == x + y;
    SumPnlAppend(x, y);
  }

  /** A winning grid trade exits in its favour, a losing one against it. */
  lemma GridExitFacts(side: Side, price: real, win: bool, u: real)
    requires price > 0.0 && 0.0 <= u < 1.0
    ensures var exit := GridExit(side, price, win, u);
      (side == Buy <==> win) <==> exit > price
  {
    UniformRange(0.005, 0.020, u);
    UniformRange(0.002, 0.005, u);
    MulPositive(price, Uniform(0.005, 0.020, u));
    MulPositive(price, Uniform(0.002, 0.005, u));
  }

  /** A grid trade is made exactly when the leverage is not zero, its
      margin needs no more than half the balance and levels are configured;
      it then enters at the price with the configured size, buys exactly
      below the level, and loses no more than the liquidation. */
  lemma GridTradeForFacts(cfg: BotConfig, rand: nat -> real, draws: nat, balance: real, time: int, price: real, level: real)
    ensures var t := GridTradeFor(cfg, rand, draws, balance, time, price, level);
      && (t.None? <==> cfg.trading.leverage == 0
                       || TooLarge(price * cfg.grid.orderSize / cfg.trading.leverage as real, balance)
                       || cfg.grid.levels == 0)
      && (t.Some? ==> && t.value.time == time && t.value.entryPrice == price
                      && t.value.quantity == cfg.grid.orderSize
                      && (t.value.side == Buy <==> price < level)
                      && Clamped(t.value, GridTrade, cfg.trading.leverage))
  {
  }

  /** A DCA trade is made exactly when the leverage is not zero and its
      margin needs no more than half the balance; it is then a Buy at the
      price with the configured size, losing no more than the
      liquidation. */
  lemma DcaTradeForFacts(cfg: BotConfig, rand: nat -> real, draws: nat, balance: real, time: int, price: real)
    ensures var t := DcaTradeFor(cfg, rand, draws, balance, time, price);
      && (t.None? <==> cfg.trading.leverage == 0
                       || TooLarge(price * cfg.dca.orderSize / cfg.trading.leverage as real, balance))
      && (t.Some? ==> && t.value.time == time && t.value.entryPrice == price
                      && t.value.quantity == cfg.dca.orderSize && t.value.side == Buy
                      && Clamped(t.value, DcaTrade, cfg.trading.leverage))
  {
  }

  /** A grid trade either changes nothing or records one trade and uses two
      draws. */
  lemma GridTradeFacts(s: Sim, cfg: BotConfig, rand: nat -> real, time: int, price: real, level: real)
    ensures var r := GridTradeSpec(s, cfg, rand, time, price, level);
      && (r == s || (|r.trades| == |s.trades| + 1 && r.draws == s.draws + 2))
      && Accumulates(s, r, GridTrade, cfg.trading.leverage)
  {
    var r := GridTradeSpec(s, cfg, rand, time, price, level);
    GridTradeForFacts(cfg, rand, s.draws, s.balance, time, price, level);
    if r == s {
      AccumulatesRefl(s, GridTrade, cfg.trading.leverage);
    } else {
      assert r.trades[|s.trades|..] == [r.trades[|s.trades|]];
    }
  }

  /** A DCA trade either changes nothing or records one trade and uses three
      draws. */
  lemma DcaTradeFacts(s: Sim, cfg: BotConfig, rand: nat -> real, time: int, price: real)
    ensures var r := DcaTradeSpec(s, cfg, rand, time, price);
      && (r == s || (|r.trades| == |s.trades| + 1 && r.draws == s.draws + 3))
      && Accumulates(s, r, DcaTrade, cfg.trading.leverage)
  {
    var r := DcaTradeSpec(s, cfg, rand, time, price);
    DcaTradeForFacts(cfg, rand, s.draws, s.balance, time, price);
    if r == s {
      AccumulatesRefl(s, DcaTrade, cfg.trading.leverage);
    } else {
      assert r.trades[|s.trades|..] == [r.trades[|s.trades|]];
    }
  }

  // ---------------------------------------------------------------------------
  // Grid simulation

  /** The lowest closing price. */
  function MinClose(bars: seq<Bar>): (m: real)
    requires |bars| > 0
    ensures forall k :: 0 <= k < |bars| ==> m <= bars[k].close
    ensures exists k :: 0 <= k < |bars| && m == bars[k].close
  {
    if |bars| == 1 then bars[0].close
    else
      var m := MinClose(bars[..|bars| - 1]);
      assert forall k :: 0 <= k < |bars| - 1 ==> bars[..|bars| - 1][k] == bars[k];
      if bars[|bars| - 1].close < m then bars[|bars| - 1].close else m
  }

  /** The highest closing price. */
  function MaxClose(bars: seq<Bar>): (m: real)
    requires |bars| > 0
    ensures forall k :: 0 <= k < |bars| ==> bars[k].close <= m
    ensures exists k :: 0 <= k < |bars| && m == bars[k].close
  {
    if |bars| == 1 then bars[0].close
    else
      var m := MaxClose(bars[..|bars| - 1]);
      assert forall k :: 0 <= k < |bars| - 1 ==> bars[..|bars| - 1][k] == bars[k];
      if bars[|bars| - 1].close > m then bars[|bars| - 1].close else m
  }

  /** The simulated grid: `n` prices from `lower`, `spacing` apart. */
  function GridPrices(lower: real, spacing: real, n: nat): (ps: seq<real>)
    ensures |ps| == n
  {
    seq(n, i => lower + i as real * spacing)
  }

  /** The grid starts at its lower bound, its prices are evenly spaced, and
      with the spacing of `n` levels between two bounds it ends at the
      upper bound. */
  lemma GridPricesFacts(lower: real, upper: real, n: nat)
    requires n >= 2
    ensures var ps := GridPrices(lower, (upper - lower) / (n - 1) as real, n);
      && ps[0] == lower && ps[n - 1] == upper
      && forall i :: 0 <= i < n - 1 ==> ps[i + 1] - ps[i] == (upper - lower) / (n - 1) as real
  {
    var spacing := (upper - lower) / (n - 1) as real;
    assert (n - 1) as real * spacing == upper - lower;
    forall i | 0 <= i < n - 1
      ensures GridPrices(lower, spacing, n)[i + 1] - GridPrices(lower, spacing, n)[i] == spacing
    {
      assert (i + 1) as real * spacing == i as real * spacing + spacing;
    }
  }

  /** The first grid price from `i` on within `tol` of `price`, or the
      length when there is none. */
  function HitFrom(levels: seq<real>, price: real, tol: real, i: nat): (k: nat)
    requires i <= |levels|
    ensures i <= k <= |levels|
    ensures forall j :: i <= j < k ==> Abs(price - levels[j]) >= tol
    ensures k < |levels| ==> Abs(price - levels[k]) < tol
    decreases |levels| - i
  {
    if i == |levels| || Abs(price - levels[i]) < tol then i else HitFrom(levels, price, tol, i + 1)
  }

  /** One bar of the grid pass: a trade at the first grid price within the
      tolerance of the close, if any. */
  function GridBar(s: Sim, cfg: BotConfig, rand: nat -> real, b: Bar, levels: seq<real>, tol: real): Sim
  {
    var k := HitFrom(levels, b.close, tol, 0);
    if k < |levels| then GridTradeSpec(s, cfg, rand, b.timestamp, b.close, levels[k]) else s
  }

  /** The pass over the first `n` bars. */
  function GridRun(s: Sim, cfg: BotConfig, rand: nat -> real, bars: seq<Bar>, levels: seq<real>, tol: real, n: nat): Sim
    requires n <= |bars|
  {
    if n == 0 then s
    else GridBar(GridRun(s, cfg, rand, bars, levels, tol, n - 1), cfg, rand, bars[n - 1], levels, tol)
  }

  /** The simulated grid and its hit tolerance. */
  datatype Plan = Plan(levels: seq<real>, tol: real)

  /** The grid of `_simulate_grid_trading`: `count` levels over the middle
      80% of the closing range, a tolerance of 60% of their spacing. */
  function PlanOf(bars: seq<Bar>, count: int): (p: Plan)
    requires |bars| > 0 && count >= 2
    ensures |p.levels| == count
  {
    var lo := MinClose(bars);
    var hi := MaxClose(bars);
    var lower := lo + (hi - lo) * 0.1;
    var upper := hi - (hi - lo) * 0.1;
    var spacing := (upper - lower) / (count - 1) as real;
    Plan(GridPrices(lower, spacing, count), spacing * 0.6)
  }

  /** `_simulate_grid_trading`. With fewer than two levels no level can be
      hit (one level has no finite spacing). */
  function GridSimSpec(s: Sim, cfg: BotConfig, rand: nat -> real, bars: seq<Bar>): Sim
  {
    if |bars| == 0 || cfg.grid.levels < 2 then s
    else
      var p := PlanOf(bars, cfg.grid.levels);
      GridRun(s, cfg, rand, bars, p.levels, p.tol, |bars|)
  }

  /** The grid pass makes at most one trade per bar, each a grid trade
      limited by the liquidation and added to balance and total. */
  lemma {:induction false} GridRunFacts(s: Sim, cfg: BotConfig, rand: nat -> real, bars: seq<Bar>, levels: seq<real>, tol: real, n: nat)
    requires n <= |bars|
    ensures var r := GridRun(s, cfg, rand, bars, levels, tol, n);
      Accumulates(s, r, GridTrade, cfg.trading.leverage) && |r.trades| <= |s.trades| + n
  {
    if n == 0 {
      AccumulatesRefl(s, GridTrade, cfg.trading.leverage);
    } else {
      GridRunFacts(s, cfg, rand, bars, levels, tol, n - 1);
      var s1 := GridRun(s, cfg, rand, bars, levels, tol, n - 1);
      var b := bars[n - 1];
      var k := HitFrom(levels, b.close, tol, 0);
      if k < |levels| {
        GridTradeFacts(s1, cfg, rand, b.timestamp, b.close, levels[k]);
        AccumulatesTrans(s, s1, GridRun(s, cfg, rand, bars, levels, tol, n), GridTrade, cfg.trading.leverage);
      }
    }
  }

  /** The whole grid pass makes at most one trade per bar. */
  lemma GridSimFacts(s: Sim, cfg: BotConfig, rand: nat -> real, bars: seq<Bar>)
    ensures var r := GridSimSpec(s, cfg, rand, bars);
      Accumulates(s, r, GridTrade, cfg.trading.leverage) && |r.trades| <= |s.trades| + |bars|
  {
    if |bars| == 0 || cfg.grid.levels < 2 {
      AccumulatesRefl(s, GridTrade, cfg.trading.leverage);
    } else {
      var p := PlanOf(bars, cfg.grid.levels);
      GridRunFacts(s, cfg, rand, bars, p.levels, p.tol, |bars|);
    }
  }

  // ---------------------------------------------------------------------------
  // DCA simulation

  /** Whether the move from `last` to `price` is at least `threshold`
      percent. The relative move divides by `last`, which must not be zero. */
  predicate Crosses(price: real, last: real, threshold: real)
    requires last != 0.0
  {
    Abs(price - last) / last * 100.0 >= threshold
  }

  /** The DCA pass: the trades so far, the previous close, whether the
      previous move was large, and whether the pass has ended. A previous
      close of zero makes the relative move a division by zero; the error
      is caught outside the loop, so the pass ends there. */
  datatype DcaScan = DcaScan(s: Sim, last: Option<real>, triggered: bool, stopped: bool)

  /** The first trade of a bar: a move of at least 80% of the trigger
      percentage trades once, until a smaller move re-arms it. */
  function DcaFirst(s: Sim, cfg: BotConfig, rand: nat -> real, b: Bar, big: bool, triggered: bool): Sim
  {
    if big && !triggered then DcaTradeSpec(s, cfg, rand, b.timestamp, b.close) else s
  }

  /** The second trade of a bar: a move of at least 40% of the trigger
      percentage uses a draw and trades on one draw in four. */
  function DcaSecond(s: Sim, cfg: BotConfig, rand: nat -> real, b: Bar, last: real): Sim
    requires last != 0.0
  {
    if Crosses(b.close, last, cfg.dca.triggerPercent * 0.4) then
      var s1 := s.(draws := s.draws + 1);
      if rand(s.draws) < 0.25 then DcaTradeSpec(s1, cfg, rand, b.timestamp, b.close) else s1
    else s
  }

  /** One bar of `_simulate_dca_trading`: nothing once the pass has ended;
      the first bar only records its close; a zero previous close ends the
      pass. */
  function DcaBar(c: DcaScan, cfg: BotConfig, rand: nat -> real, b: Bar): DcaScan
  {
    if c.stopped then c
    else if c.last.None? then c.(last := Some(b.close))
    else if c.last.value == 0.0 then c.(stopped := true)
    else
      var big := Crosses(b.close, c.last.value, cfg.dca.triggerPercent * 0.8);
      DcaScan(DcaSecond(DcaFirst(c.s, cfg, rand, b, big, c.triggered), cfg, rand, b, c.last.value), Some(b.close), big, false)
  }

  function DcaRun(c: DcaScan, cfg: BotConfig, rand: nat -> real, bars: seq<Bar>, n: nat): DcaScan
    requires n <= |bars|
  {
    if n == 0 then c else DcaBar(DcaRun(c, cfg, rand, bars, n - 1), cfg, rand, bars[n - 1])
  }

  /** `_simulate_dca_trading`. */
  function DcaSimSpec(s: Sim, cfg: BotConfig, rand: nat -> real, bars: seq<Bar>): Sim
  {
    DcaRun(DcaScan(s, None, false, false), cfg, rand, bars, |bars|).s
  }

  lemma DcaFirstFacts(s: Sim, cfg: BotConfig, rand: nat -> real, b: Bar, big: bool, triggered: bool)
    ensures var r := DcaFirst(s, cfg, rand, b, big, triggered);
      Accumulates(s, r, DcaTrade, cfg.trading.leverage) && |r.trades| <= |s.trades| + 1
  {
    DcaTradeFacts(s, cfg, rand, b.timestamp, b.close);
    AccumulatesRefl(s, DcaTrade, cfg.trading.leverage);
  }

  /** The additional trigger makes at most one trade, and a move below 40%
      of the trigger percentage neither draws nor trades. */
  lemma DcaSecondFacts(s: Sim, cfg: BotConfig, rand: nat -> real, b: Bar, last: real)
    requires last != 0.0
    ensures var r := DcaSecond(s, cfg, rand, b, last);
      Accumulates(s, r, DcaTrade, cfg.trading.leverage) && |r.trades| <= |s.trades| + 1
      && (Abs(b.close - last) / last * 100.0 < cfg.dca.triggerPercent * 0.4 ==> r == s)
  {
    var lev := cfg.trading.leverage;
    var s1 := s.(draws := s.draws + 1);
    assert Accumulates(s, s1, DcaTrade, lev) by {
      assert s1.trades[|s.trades|..] == [];
    }
    DcaTradeFacts(s1, cfg, rand, b.timestamp, b.close);
    AccumulatesRefl(s, DcaTrade, lev);
    AccumulatesRefl(s1, DcaTrade, lev);
    if Crosses(b.close, last, cfg.dca.triggerPercent * 0.4) {
      AccumulatesTrans(s, s1, DcaSecond(s, cfg, rand, b, last), DcaTrade, lev);
    }
  }

  /** One bar makes at most two DCA trades. A bar after a zero close, or
      after the pass has ended, trades nothing and leaves the pass ended;
      any other bar records its close. */
  lemma DcaBarFacts(c: DcaScan, cfg: BotConfig, rand: nat -> real, b: Bar)
    ensures var r := DcaBar(c, cfg, rand, b).s;
      Accumulates(c.s, r, DcaTrade, cfg.trading.leverage) && |r.trades| <= |c.s.trades| + 2
    ensures c.stopped || c.last == Some(0.0) ==> DcaBar(c, cfg, rand, b).stopped && DcaBar(c, cfg, rand, b).s == c.s
    ensures !c.stopped && c.last != Some(0.0) ==> !DcaBar(c, cfg, rand, b).stopped && DcaBar(c, cfg, rand, b).last == Some(b.close)
  {
    var lev := cfg.trading.leverage;
    if c.stopped || c.last.None? || c.last.value == 0.0 {
      AccumulatesRefl(c.s, DcaTrade, lev);
    } else {
      var big := Crosses(b.close, c.last.value, cfg.dca.triggerPercent * 0.8);
      var s1 := DcaFirst(c.s, cfg, rand, b, big, c.triggered);
      DcaFirstFacts(c.s, cfg, rand, b, big, c.triggered);
      DcaSecondFacts(s1, cfg, rand, b, c.last.value);
      AccumulatesTrans(c.s, s1, DcaSecond(s1, cfg, rand, b, c.last.value), DcaTrade, lev);
    }
  }

  /** The DCA pass makes at most two trades per bar, each a DCA trade
      limited by the liquidation and added to balance and total. */
  lemma {:induction false} DcaRunFacts(c: DcaScan, cfg: BotConfig, rand: nat -> real, bars: seq<Bar>, n: nat)
    requires n <= |bars|
    ensures var r := DcaRun(c, cfg, rand, bars, n).s;
      Accumulates(c.s, r, DcaTrade, cfg.trading.leverage) && |r.trades| <= |c.s.trades| + 2 * n
  {
    if n == 0 {
      AccumulatesRefl(c.s, DcaTrade, cfg.trading.leverage);
    } else {
      DcaRunFacts(c, cfg, rand, bars, n - 1);
      var c1 := DcaRun(c, cfg, rand, bars, n - 1);
      DcaBarFacts(c1, cfg, rand, bars[n - 1]);
      AccumulatesTrans(c.s, c1.s, DcaRun(c, cfg, rand, bars, n).s, DcaTrade, cfg.trading.leverage);
    }
  }

  /** After at least one bar the pass has ended or holds the close of the
      last bar it saw. */
  lemma DcaRunLast(c: DcaScan, cfg: BotConfig, rand: nat -> real, bars: seq<Bar>, n: nat)
    requires 0 < n <= |bars|
    ensures var r := DcaRun(c, cfg, rand, bars, n); r.stopped || r.last == Some(bars[n - 1].close)
  {
    DcaBarFacts(DcaRun(c, cfg, rand, bars, n - 1), cfg, rand, bars[n - 1]);
  }

  /** Once the pass has ended, later bars change nothing. */
  lemma {:induction false} DcaRunStopped(c: DcaScan, cfg: BotConfig, rand: nat -> real, bars: seq<Bar>, i: nat, n: nat)
    requires i <= n <= |bars| && DcaRun(c, cfg, rand, bars, i).stopped
    ensures DcaRun(c, cfg, rand, bars, n) == DcaRun(c, cfg, rand, bars, i)
    decreases n
  {
    if n > i {
      DcaRunStopped(c, cfg, rand, bars, i, n - 1);
    }
  }

  /** The pass over the first `n` bars reads only those bars. */
  lemma {:induction false} DcaRunPrefix(c: DcaScan, cfg: BotConfig, rand: nat -> real, bars: seq<Bar>, m: nat, n: nat)
    requires n <= m <= |bars|
    ensures DcaRun(c, cfg, rand, bars, n) == DcaRun(c, cfg, rand, bars[..m], n)
  {
    if n > 0 {
      DcaRunPrefix(c, cfg, rand, bars, m, n - 1);
    }
  }

  /** The whole DCA pass makes at most two trades per bar. */
  lemma DcaSimFacts(s: Sim, cfg: BotConfig, rand: nat -> real, bars: seq<Bar>)
    ensures var r := DcaSimSpec(s, cfg, rand, bars);
      Accumulates(s, r, DcaTrade, cfg.trading.leverage) && |r.trades| <= |s.trades| + 2 * |bars|
  {
    DcaRunFacts(DcaScan(s, None, false, false), cfg, rand, bars, |bars|);
  }

  /** A zero close ends the DCA pass: the bars after it make no trade and
      use no draw, so the pass equals the pass over the bars up to it. */
  lemma DcaZeroCloseEnds(s: Sim, cfg: BotConfig, rand: nat -> real, bars: seq<Bar>, j: nat)
    requires j < |bars| && bars[j].close == 0.0
    ensures DcaSimSpec(s, cfg, rand, bars) == DcaSimSpec(s, cfg, rand, bars[..j + 1])
  {
    var c := DcaScan(s, None, false, false);
    DcaRunPrefix(c, cfg, rand, bars, j + 1, j + 1);
    assert |bars[..j + 1]| == j + 1;
    if j + 1 < |bars| {
      DcaRunLast(c, cfg, rand, bars, j + 1);
      DcaBarFacts(DcaRun(c, cfg, rand, bars, j + 1), cfg, rand, bars[j + 1]);
      DcaRunStopped(c, cfg, rand, bars, j + 2, |bars|);
    }
  }

  // ---------------------------------------------------------------------------
  // Results

  /** The tally of the trades: winners have a positive result, every other
      trade counts as a loser. */
  datatype Tally = Tally(wins: nat, losses: nat, totalWins: real, totalLosses: real)

  function TallyOf(ts: seq<Trade>): Tally
  {
    if |ts| == 0 then Tally(0, 0, 0.0, 0.0)
    else
      var t := TallyOf(ts[..|ts| - 1]);
      var p := ts[|ts| - 1].pnl;
      if p > 0.0 then t.(wins := t.wins + 1, totalWins := t.totalWins + p)
      else t.(losses := t.losses + 1, totalLosses := t.totalLosses + Abs(p))
  }

  /** Every trade is a winner or a loser; the sums are not negative and
      their difference is the net result; there are no winners exactly when
      no trade made money, no losers exactly when every trade made money,
      and no losses to sum exactly when no trade lost money. */
  lemma {:induction false} TallyFacts(ts: seq<Trade>)
    ensures var t := TallyOf(ts);
      && t.wins + t.losses == |ts|
      && t.totalWins >= 0.0 && t.totalLosses >= 0.0
      && t.totalWins - t.totalLosses == SumPnl(ts)
      && (t.wins == 0 <==> forall k :: 0 <= k < |ts| ==> ts[k].pnl <= 0.0)
      && (t.losses == 0 <==> forall k :: 0 <= k < |ts| ==> ts[k].pnl > 0.0)
      && (t.totalLosses == 0.0 <==> forall k :: 0 <= k < |ts| ==> ts[k].pnl >= 0.0)
  {
    if |ts| > 0 {
      var init := ts[..|ts| - 1];
      TallyFacts(init);
      assert forall k :: 0 <= k < |init| ==> init[k] == ts[k];
    }
  }

  /** A profit factor, infinite when nothing was lost. */
  datatype Ratio = Finite(value: real) | Infinite

  datatype BacktestResult = BacktestResult(
    startDate: string,
    endDate: string,
    initialCapital: real,
    finalCapital: real,
    totalReturn: real,
    maxDrawdown: real,
    winRate: real,
    profitFactor: Ratio,
    totalTrades: nat,
    winningTrades: nat,
    losingTrades: nat,
    avgWin: real,
    avgLoss: real)

  /** The share of winners, as a percentage; zero without trades. */
  function WinRate(wins: nat, n: nat): real
  {
    if n > 0 then wins as real / n as real * 100.0 else 0.0
  }

  lemma WinRateRange(wins: nat, n: nat)
    requires wins <= n
    ensures 0.0 <= WinRate(wins, n) <= 100.0
  {
    if n > 0 {
      DivNonNegative(wins as real, n as real);
      DivPositiveMonotone(wins as real, n as real, n as real);
    }
  }

  /** The summed wins over the summed losses, infinite with no losses. */
  function ProfitFactor(t: Tally): Ratio
  {
    if t.totalLosses > 0.0 then Finite(t.totalWins / t.totalLosses) else Infinite
  }

  /** `_calculate_results`: the return is taken on the PnL total, which
      fails on a zero initial capital. */
  function ResultsOf(ts: seq<Trade>, totalPnl: real, maxDrawdown: real, bcfg: BacktestConfig): Result<BacktestResult, string>
  {
    var initial := bcfg.initialCapital;
    if initial == 0.0 then Failure("float division by zero")
    else
      var t := TallyOf(ts);
      Success(BacktestResult(
        bcfg.startDate, bcfg.endDate, initial, initial + totalPnl, totalPnl / initial * 100.0, maxDrawdown,
        WinRate(t.wins, |ts|),
        ProfitFactor(t),
        |ts|, t.wins, t.losses,
        if t.wins > 0 then t.totalWins / t.wins as real else 0.0,
        if t.losses > 0 then t.totalLosses / t.losses as real else 0.0))
  }

  /** The results count every trade once, as a winner or a loser; the win
      rate is a percentage, zero without trades; the profit factor is
      infinite exactly when no trade lost money. */
  lemma ResultsFacts(ts: seq<Trade>, totalPnl: real, maxDrawdown: real, bcfg: BacktestConfig)
    ensures var r := ResultsOf(ts, totalPnl, maxDrawdown, bcfg);
      && (r.Success? <==> bcfg.initialCapital != 0.0)
      && (r.Success? ==>
            && r.value.totalTrades == |ts| == r.value.winningTrades + r.value.losingTrades
            && r.value.finalCapital == bcfg.initialCapital + totalPnl
            && r.value.maxDrawdown == maxDrawdown
            && 0.0 <= r.value.winRate <= 100.0
            && (|ts| == 0 ==> r.value.winRate == 0.0)
            && (r.value.profitFactor.Infinite? <==> forall k :: 0 <= k < |ts| ==> ts[k].pnl >= 0.0))
  {
    TallyFacts(ts);
    WinRateRange(TallyOf(ts).wins, |ts|);
  }

  // ---------------------------------------------------------------------------
  // A run

  /** The engine's fields: the loaded data, if any, the trades, the
      balance, its peak, the drawdown mark, the PnL total, and the number of
      random draws used. */
  datatype Engine = Engine(
    data: Option<seq<Bar>>,
    trades: seq<Trade>,
    balance: real,
    peak: real,
    maxDrawdown: real,
    totalPnl: real,
    draws: nat)

  /** `run_backtest` as written: the reset keeps the PnL total of earlier
      runs, and the drawdown mark is never updated. */
  function RunSpec(e: Engine, cfg: BotConfig, rand: nat -> real): (Engine, Result<BacktestResult, string>)
  {
    if e.data.None? then (e, Failure("No data loaded. Call load_data() first."))
    else
      var initial := cfg.backtest.initialCapital;
      var s1 := GridSimSpec(Sim([], initial, e.totalPnl, e.draws), cfg, rand, e.data.value);
      var s2 := if cfg.dca.enabled then DcaSimSpec(s1, cfg, rand, e.data.value) else s1;
      (Engine(e.data, s2.trades, s2.balance, initial, 0.0, s2.totalPnl, s2.draws),
       ResultsOf(s2.trades, s2.totalPnl, 0.0, cfg.backtest))
  }

  /** The run's trades, from the grid pass and then the DCA pass, each
      limited by the liquidation, end with the balance at the initial
      capital plus their results. */
  lemma RunTrades(s: Sim, cfg: BotConfig, rand: nat -> real, bars: seq<Bar>)
    requires s.trades == []
    ensures var s1 := GridSimSpec(s, cfg, rand, bars);
      var s2 := if cfg.dca.enabled then DcaSimSpec(s1, cfg, rand, bars) else s1;
      && s2.balance == s.balance + SumPnl(s2.trades)
      && s2.totalPnl == s.totalPnl + SumPnl(s2.trades)
      && (forall k :: 0 <= k < |s2.trades| ==> s2.trades[k].kind == GridTrade || s2.trades[k].kind == DcaTrade)
  {
    var s1 := GridSimSpec(s, cfg, rand, bars);
    GridSimFacts(s, cfg, rand, bars);
    assert s1.trades[|s.trades|..] == s1.trades;
    if cfg.dca.enabled {
      DcaSimFacts(s1, cfg, rand, bars);
      var s2 := DcaSimSpec(s1, cfg, rand, bars);
      assert s2.trades == s1.trades + s2.trades[|s1.trades|..];
      SumPnlAppend(s1.trades, s2.trades[|s1.trades|..]);
    }
  }

  /** Without data a run fails and changes nothing. Otherwise the run's
      trades replace the old ones, the balance is the initial capital plus
      their results, the drawdown mark and the reported maximum drawdown are
      0.0, but the PnL total, and with it the final capital, still carries
      the results of the earlier runs. */
  lemma RunFacts(e: Engine, cfg: BotConfig, rand: nat -> real)
    ensures var (e2, r) := RunSpec(e, cfg, rand);
      && (e.data.None? ==> e2 == e && r.Failure?)
      && (e.data.Some? ==>
            && e2.data == e.data && e2.maxDrawdown == 0.0 && e2.peak == cfg.backtest.initialCapital
            && e2.balance == cfg.backtest.initialCapital + SumPnl(e2.trades)
            && e2.totalPnl == e.totalPnl + SumPnl(e2.trades)
            && (r.Success? <==> cfg.backtest.initialCapital != 0.0)
            && (r.Success? ==> r.value.maxDrawdown == 0.0 && r.value.totalTrades == |e2.trades|
                               && r.value.finalCapital == e2.balance + e.totalPnl))
  {
    if e.data.Some? {
      var initial := cfg.backtest.initialCapital;
      var s := Sim([], initial, e.totalPnl, e.draws);
      RunTrades(s, cfg, rand, e.data.value);
      var (e2, r) := RunSpec(e, cfg, rand);
      ResultsFacts(e2.trades, e2.totalPnl, 0.0, cfg.backtest);
    }
  }

  /** `run_backtest` as evidently intended: the reset also clears the PnL
      total. */
  function RunSpecIntended(e: Engine, cfg: BotConfig, rand: nat -> real): (Engine, Result<BacktestResult, string>)
  {
    RunSpec(e.(totalPnl := 0.0), cfg, rand)
  }

  /** With the total reset, the final capital is the balance the run ends
      with, whatever earlier runs did. */
  lemma RunIntendedFinal(e: Engine, cfg: BotConfig, rand: nat -> real)
    ensures var (e2, r) := RunSpecIntended(e, cfg, rand);
      r.Success? ==> r.value.finalCapital == e2.balance && e2.totalPnl == SumPnl(e2.trades)
  {
    RunFacts(e.(totalPnl := 0.0), cfg, rand);
  }

  // ---------------------------------------------------------------------------
  // The engine

  /** The backtest engine: its trade list, balance and totals are updated
      in place as the simulation proceeds, exactly as the corresponding
      function of this module says. */
  class BacktestEngine {
    const cfg: BotConfig
    /** The source of `random.random()` draws; `draws` of them are used up. */
    const rand: nat -> real

    var data: Option<seq<Bar>>
    var trades: seq<Trade>
    var currentBalance: real
    var peakBalance: real
    var maxDrawdown: real
    var totalPnl: real
    var draws: nat

    function State(): Engine
      reads this
    {
      Engine(data, trades, currentBalance, peakBalance, maxDrawdown, totalPnl, draws)
    }

    function Current(): Sim
      reads this
    {
      Sim(trades, currentBalance, totalPnl, draws)
    }

    constructor (cfg: BotConfig, rand: nat -> real, data: Option<seq<Bar>>)
      ensures this.cfg == cfg && this.rand == rand
      ensures State() == Engine(data, [], 0.0, 0.0, 0.0, 0.0, 0)
    {
      this.cfg := cfg;
      this.rand := rand;
      this.data := data;
      trades := [];
      currentBalance := 0.0;
      peakBalance := 0.0;
      maxDrawdown := 0.0;
      totalPnl := 0.0;
      draws := 0;
    }

    method RunBacktest() returns (r: Result<BacktestResult, string>)
      modifies this
      ensures (State(), r) == RunSpec(old(State()), cfg, rand)
    {
      if data.None? {
        return Failure("No data loaded. Call load_data() first.");
      }
      currentBalance := cfg.backtest.initialCapital;
      peakBalance := currentBalance;
      maxDrawdown := 0.0;
      trades := [];
      SimulateGridTrading();
      if cfg.dca.enabled {
        SimulateDcaTrading();
      }
      r := CalculateResults();
    }

    method SimulateGridTrading()
      requires data.Some?
      modifies this
      ensures data == old(data) && peakBalance == old(peakBalance) && maxDrawdown == old(maxDrawdown)
      ensures Current() == GridSimSpec(old(Current()), cfg, rand, data.value)
    {
      var bars := data.value;
      if |bars| == 0 || cfg.grid.levels < 2 {
        return;
      }
      var plan := BuildPlan(bars, cfg.grid.levels);
      GridPass(bars, plan.levels, plan.tol);
    }

    /** The pass of `_simulate_grid_trading` over the bars. */
    method GridPass(bars: seq<Bar>, levels: seq<real>, tol: real)
      modifies this
      ensures data == old(data) && peakBalance == old(peakBalance) && maxDrawdown == old(maxDrawdown)
      ensures Current() == GridRun(old(Current()), cfg, rand, bars, levels, tol, |bars|)
    {
      ghost var s0 := Current();
      var i := 0;
      while i < |bars|
        invariant i <= |bars|
        invariant Current() == GridRun(s0, cfg, rand, bars, levels, tol, i)
        invariant data == old(data) && peakBalance == old(peakBalance) && maxDrawdown == old(maxDrawdown)
      {
        GridStep(bars, i, levels, tol, s0);
        i := i + 1;
      }
    }

    /** One bar of `_simulate_grid_trading`: the level search, stopped at
        the first hit, and the trade there. */
    method GridStep(bars: seq<Bar>, i: nat, levels: seq<real>, tol: real, ghost s0: Sim)
      requires i < |bars| && Current() == GridRun(s0, cfg, rand, bars, levels, tol, i)
      modifies this
      ensures data == old(data) && peakBalance == old(peakBalance) && maxDrawdown == old(maxDrawdown)
      ensures Current() == GridRun(s0, cfg, rand, bars, levels, tol, i + 1)
    {
      var k := FindHit(levels, bars[i].close, tol);
      if k < |levels| {
        SimulateGridTrade(bars[i].timestamp, bars[i].close, levels[k]);
      }
    }

    method SimulateGridTrade(time: int, price: real, level: real)
      modifies this
      ensures data == old(data) && peakBalance == old(peakBalance) && maxDrawdown == old(maxDrawdown)
      ensures Current() == GridTradeSpec(old(Current()), cfg, rand, time, price, level)
    {
      var t := GridTradeFor(cfg, rand, draws, currentBalance, time, price, level);
      if t.Some? {
        draws := draws + 2;
        trades := trades + [t.value];
        totalPnl := totalPnl + t.value.pnl;
        currentBalance := currentBalance + t.value.pnl;
      }
    }

    /** `_simulate_dca_trading`. A zero previous close raises in the
        relative move; the handler is outside the loop, so the pass ends. */
    method SimulateDcaTrading()
      requires data.Some?
      modifies this
      ensures data == old(data) && peakBalance == old(peakBalance) && maxDrawdown == old(maxDrawdown)
      ensures Current() == DcaSimSpec(old(Current()), cfg, rand, data.value)
    {
      var bars := data.value;
      ghost var c0 := DcaScan(old(Current()), None, false, false);
      var last: Option<real> := None;
      var triggered := false;
      var i := 0;
      while i < |bars|
        invariant i <= |bars|
        invariant DcaScan(Current(), last, triggered, false) == DcaRun(c0, cfg, rand, bars, i)
        invariant data == old(data) && peakBalance == old(peakBalance) && maxDrawdown == old(maxDrawdown)
      {
        if last.Some? {
          if last.value == 0.0 {
            DcaBarFacts(DcaRun(c0, cfg, rand, bars, i), cfg, rand, bars[i]);
            DcaRunStopped(c0, cfg, rand, bars, i + 1, |bars|);
            break;
          }
          triggered := DcaStep(bars[i], last.value, triggered);
        }
        last := Some(bars[i].close);
        i := i + 1;
      }
    }

    /** One bar of `_simulate_dca_trading` after the first, from a non-zero
        previous close; the result is whether the move was large. */
    method DcaStep(b: Bar, last: real, triggered: bool) returns (big: bool)
      requires last != 0.0
      modifies this
      ensures data == old(data) && peakBalance == old(peakBalance) && maxDrawdown == old(maxDrawdown)
      ensures DcaScan(Current(), Some(b.close), big, false) == DcaBar(DcaScan(old(Current()), Some(last), triggered, false), cfg, rand, b)
    {
      big := Crosses(b.close, last, cfg.dca.triggerPercent * 0.8);
      if big && !triggered {
        SimulateDcaTrade(b.timestamp, b.close);
      }
      DcaSecondStep(b, last);
    }

    /** The move of at least 40% of the trigger percentage and its draw. */
    method DcaSecondStep(b: Bar, last: real)
      requires last != 0.0
      modifies this
      ensures data == old(data) && peakBalance == old(peakBalance) && maxDrawdown == old(maxDrawdown)
      ensures Current() == DcaSecond(old(Current()), cfg, rand, b, last)
    {
      if Crosses(b.close, last, cfg.dca.triggerPercent * 0.4) {
        var u := rand(draws);
        draws := draws + 1;
        if u < 0.25 {
          SimulateDcaTrade(b.timestamp, b.close);
        }
      }
    }

    method SimulateDcaTrade(time: int, price: real)
      modifies this
      ensures data == old(data) && peakBalance == old(peakBalance) && maxDrawdown == old(maxDrawdown)
      ensures Current() == DcaTradeSpec(old(Current()), cfg, rand, time, price)
    {
      var t := DcaTradeFor(cfg, rand, draws, currentBalance, time, price);
      if t.Some? {
        draws := draws + 3;
        trades := trades + [t.value];
        totalPnl := totalPnl + t.value.pnl;
        currentBalance := currentBalance + t.value.pnl;
      }
    }

    method CalculateResults() returns (r: Result<BacktestResult, string>)
      ensures r == ResultsOf(trades, totalPnl, maxDrawdown, cfg.backtest)
    {
      var initial := cfg.backtest.initialCapital;
      if initial == 0.0 {
        return Failure("float division by zero");
      }
      var t := TallyTrades(trades);
      var n := |trades|;
      var winRate := 0.0;
      if n > 0 {
        winRate := t.wins as real / n as real * 100.0;
      }
      var avgWin := if t.wins > 0 then t.totalWins / t.wins as real else 0.0;
      var avgLoss := if t.losses > 0 then t.totalLosses / t.losses as real else 0.0;
      var factor := Infinite;
      if t.totalLosses > 0.0 {
        factor := Finite(t.totalWins / t.totalLosses);
      }
      r := Success(BacktestResult(cfg.backtest.startDate, cfg.backtest.endDate, initial, initial + totalPnl,
                                  totalPnl / initial * 100.0, maxDrawdown, winRate, factor, n, t.wins, t.losses,
                                  avgWin, avgLoss));
    }
  }

  /** The grid set-up of `_simulate_grid_trading`. */
  method BuildPlan(bars: seq<Bar>, count: int) returns (p: Plan)
    requires |bars| > 0 && count >= 2
    ensures p == PlanOf(bars, count)
  {
    var lo := MinClose(bars);
    var hi := MaxClose(bars);
    var lower := lo + (hi - lo) * 0.1;
    var upper := hi - (hi - lo) * 0.1;
    var spacing := (upper - lower) / (count - 1) as real;
    var levels := BuildGridPrices(lower, spacing, count);
    p := Plan(levels, spacing * 0.6);
  }

  /** The building loop of `_simulate_grid_trading`. */
  method BuildGridPrices(lower: real, spacing: real, n: int) returns (ps: seq<real>)
    ensures ps == GridPrices(lower, spacing, RangeLength(n))
  {
    ps := [];
    for i := 0 to RangeLength(n)
      invariant |ps| == i
      invariant forall j :: 0 <= j < i ==> ps[j] == lower + j as real * spacing
    {
      ps := ps + [lower + i as real * spacing];
    }
    assert forall j :: 0 <= j < |ps| ==> ps[j] == GridPrices(lower, spacing, RangeLength(n))[j];
  }

  /** The level search of `_simulate_grid_trading`, which stops at the
      first hit. */
  method FindHit(levels: seq<real>, price: real, tol: real) returns (k: nat)
    ensures k == HitFrom(levels, price, tol, 0)
  {
    k := 0;
    while k < |levels|
      invariant k <= |levels|
      invariant HitFrom(levels, price, tol, k) == HitFrom(levels, price, tol, 0)
    {
      if Abs(price - levels[k]) < tol {
        return;
      }
      k := k + 1;
    }
  }

  /** The tally loop of `_calculate_results`. */
  method TallyTrades(ts: seq<Trade>) returns (t: Tally)
    ensures t == TallyOf(ts)
  {
    t := Tally(0, 0, 0.0, 0.0);
    var i := 0;
    while i < |ts|
      invariant i <= |ts|
      invariant t == TallyOf(ts[..i])
    {
      assert ts[..i + 1][..i] == ts[..i];
      var p := ts[i].pnl;
      if p > 0.0 {
        t := t.(wins := t.wins + 1, totalWins := t.totalWins + p);
      } else {
        t := t.(losses := t.losses + 1, totalLosses := t.totalLosses + Abs(p));
      }
      i := i + 1;
    }
    assert ts[..|ts|] == ts;
  }
}
