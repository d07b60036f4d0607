/** The trading bot: it connects, starts the grid and DCA engines, and then
    runs cycles of risk check, grid update, DCA update and account report
    until it is stopped, by a failed risk check, the kill switch or a call
    to stop. The three components share one exchange client. */
module Bot {
  import opened Wrappers
  import opened Port
  import opened Config
  import Grid
  import Dca
  import Risk

  /** The trend the DCA engine is started with. */
  const StartTrend: string := "down"

  /** The components' states and the `running` flag. */
  datatype BotState = BotState(grid: Grid.GridState, dca: Dca.DcaState, risk: Risk.RiskState, running: bool)

  /** What the components keep. */
  predicate Invariant(b: BotState)
  {
    Grid.WellFormed(b.grid.levels) && Dca.Invariant(b.dca) && Risk.Invariant(b.risk)
  }

  /** The bot and the exchange after an operation, and its answer. */
  datatype Step = Step(b: BotState, port: PortState, ok: bool)

  // ---------------------------------------------------------------------------
  // Start and stop

  /** `start`: a running bot answers true; otherwise connect, ask for the
      leverage (whose answer is not consulted), start the grid, start DCA,
      and only then run. */
  function StartSpec(b: BotState, port: PortState, cfg: BotConfig): Step
  {
    if b.running then Step(b, port, true)
    else if !port.ConnectReply() then Step(b, port.AfterConnect(), false)
    else
      var p1 := port.AfterConnect().Issue(Leverage(cfg.trading.leverage));
      var g := Grid.StartSpec(b.grid, p1, cfg.grid);
      if !g.ok then Step(b.(grid := g.g), g.port, false)
      else
        var d := Dca.StartSpec(b.dca, g.port, cfg.dca, StartTrend);
        if !d.ok then Step(b.(grid := g.g, dca := d.d), d.port, false)
        else Step(b.(grid := g.g, dca := d.d, running := true), d.port, true)
  }

  /** Starting a running bot changes nothing. Otherwise the bot runs after a
      start exactly when the start succeeds, which needs the connection;
      after a successful start the grid is active and so is DCA when it is
      enabled. The risk manager is not involved. */
  lemma StartFacts(b: BotState, port: PortState, cfg: BotConfig)
    requires Invariant(b)
    ensures var s := StartSpec(b, port, cfg);
      && (b.running ==> s == Step(b, port, true))
      && (!b.running ==> (s.ok <==> s.b.running))
      && (!b.running && !port.ConnectReply() ==> s == Step(b, port.AfterConnect(), false))
      && (s.ok ==> port.ConnectReply() || b.running)
      && (s.ok && !b.running ==> s.b.grid.active && (cfg.dca.enabled ==> s.b.dca.active))
      && s.b.risk == b.risk
      && Invariant(s.b)
  {
    if !b.running && port.ConnectReply() {
      var p1 := port.AfterConnect().Issue(Leverage(cfg.trading.leverage));
      Grid.StartFacts(b.grid, p1, cfg.grid);
      var g := Grid.StartSpec(b.grid, p1, cfg.grid);
      Dca.StartFacts(b.dca, g.port, cfg.dca, StartTrend);
    }
  }

  /** `stop`: a stopped bot answers true; otherwise stop running, stop the
      grid, then DCA, then disconnect. */
  function StopSpec(b: BotState, port: PortState, cfg: BotConfig): Step
  {
    if !b.running then Step(b, port, true)
    else
      var g := Grid.StopSpec(b.grid, port);
      var d := Dca.StopSpec(b.dca, g.port, cfg.dca);
      Step(b.(running := false, grid := g.g, dca := d.d), d.port.(connected := false), true)
  }

  /** Stopping always succeeds and leaves the bot not running. Stopping a
      stopped bot changes nothing; stopping a running one leaves the grid
      inactive, DCA inactive when enabled, and the client disconnected. */
  lemma StopFacts(b: BotState, port: PortState, cfg: BotConfig)
    requires Invariant(b)
    ensures var s := StopSpec(b, port, cfg);
      && s.ok && !s.b.running
      && (!b.running ==> s == Step(b, port, true))
      && (b.running ==> !s.b.grid.active && (cfg.dca.enabled ==> !s.b.dca.active) && !s.port.connected)
      && s.b.risk == b.risk
      && Invariant(s.b)
  {
    if b.running {
      Grid.StopFacts(b.grid, port);
      Dca.StopFacts(b.dca, Grid.StopSpec(b.grid, port).port, cfg.dca);
    }
  }

  /** `_on_kill_switch`: the bot's answer to the kill switch. */
  function OnKillSwitch(b: BotState): (r: BotState)
    ensures !r.running && r == b.(running := false)
  {
    b.(running := false)
  }

  /** `emergency_stop`: trip the kill switch (whose callback stops the bot
      running), then `stop`. */
  function EmergencyStopSpec(b: BotState, port: PortState, cfg: BotConfig): Step
  {
    var k := Risk.KillSpec(b.risk, port, cfg.trading.symbol, true);
    var b1 := b.(risk := k.r);
    StopSpec(if k.fired then OnKillSwitch(b1) else b1, k.port, cfg)
  }

  /** As written, an emergency stop of a running bot whose kill switch was
      not yet set leaves both engines exactly as they were and the client
      as connected as it was: the kill-switch callback has already cleared
      `running`, so `stop` returns at its first test. */
  lemma EmergencyStopLeavesEnginesRunning(b: BotState, port: PortState, cfg: BotConfig)
    requires b.running && !b.risk.killSwitch
    ensures var s := EmergencyStopSpec(b, port, cfg);
      && s.ok && !s.b.running && s.b.risk.killSwitch
      && s.b.grid == b.grid && s.b.dca == b.dca
      && s.port.connected == port.connected
  {
    var symbol := cfg.trading.symbol;
    Risk.KillFacts(b.risk, port, symbol, true);
    var p1 := IssueAll(port.AfterPositions(), Risk.CloseRequests(port.Positions().GetOr([]), symbol));
    IssueAllLogs(port.AfterPositions(), Risk.CloseRequests(port.Positions().GetOr([]), symbol));
    IssueAllLogs(p1.AfterOpenOrders(), Risk.OrderCancels(p1.OpenOrders().GetOr([]), symbol));
  }

  /** What an emergency stop is evidently meant to do: trip the kill switch
      and stop the engines and the connection whether or not the callback
      already cleared `running`. */
  function EmergencyStopIntendedSpec(b: BotState, port: PortState, cfg: BotConfig): Step
  {
    var k := Risk.KillSpec(b.risk, port, cfg.trading.symbol, true);
    StopSpec(b.(risk := k.r, running := true), k.port, cfg)
  }

  /** The intended emergency stop always leaves the bot not running, the
      kill switch set, the grid inactive, DCA inactive when enabled and the
      client disconnected. */
  lemma EmergencyStopIntendedFacts(b: BotState, port: PortState, cfg: BotConfig)
    requires Invariant(b)
    ensures var s := EmergencyStopIntendedSpec(b, port, cfg);
      && s.ok && !s.b.running && s.b.risk.killSwitch
      && !s.b.grid.active && (cfg.dca.enabled ==> !s.b.dca.active) && !s.port.connected
      && Invariant(s.b)
  {
    Risk.KillFacts(b.risk, port, cfg.trading.symbol, true);
    var k := Risk.KillSpec(b.risk, port, cfg.trading.symbol, true);
    StopFacts(b.(risk := k.r, running := true), k.port, cfg);
  }

  // ---------------------------------------------------------------------------
  // The main loop

  /** Whether the first "USDT" entry lacks its used margin, which makes the
      account report stop before it reads the positions. */
  predicate MarginMissing(coins: seq<Coin>)
  {
    var k := Risk.UsdtFrom(coins, 0);
    k < |coins| && coins[k].usedMargin.None?
  }

  /** `_log_account_status`: it reads the balance and, unless the "USDT"
      entry lacks its used margin, the positions; the rest is reporting. */
  function LogStatusSpec(port: PortState): PortState
  {
    var b := port.Balance();
    var port1 := port.AfterBalance();
    if b.Some? && MarginMissing(b.value) then port1 else port1.AfterPositions()
  }

  /** The account report sends nothing and reads only the balance and the
      positions. */
  lemma LogStatusFacts(port: PortState)
    ensures var p := LogStatusSpec(port);
      && p.sent == port.sent && p.prices == port.prices && p.openOrders == port.openOrders
      && p.placeReplies == port.placeReplies && p.cancelReplies == port.cancelReplies
      && p.connected == port.connected
      && p.balances == Drop(port.balances)
      && (p.positions == port.positions || p.positions == Drop(port.positions))
  {
  }

  /** One pass of `_main_loop` at time `now`: the risk check (whose kill
      switch may call back), and only when it passes, the grid update, the
      DCA update and the account report. */
  function CycleSpec(b: BotState, port: PortState, cfg: BotConfig, now: real, rand: nat -> real): Step
  {
    var c := Risk.CheckRiskSpec(b.risk, port, cfg.risk, cfg.trading.symbol, true);
    var b1 := b.(risk := c.r);
    var b2 := if c.fired then OnKillSwitch(b1) else b1;
    if !c.ok then Step(b2.(running := false), c.port, false)
    else
      var g := Grid.UpdateSpec(b2.grid, c.port, now, rand);
      var d := Dca.UpdateSpec(b2.dca, g.port, now, cfg.dca);
      Step(b2.(grid := g.g, dca := d.d), LogStatusSpec(d.port), true)
  }

  /** A cycle goes on exactly when the kill switch is not set after its risk
      check. A failed check stops the bot before either engine is updated;
      a passing one keeps the bot's `running` flag and updates the grid and
      then DCA. Either way the risk manager's high-water marks do not fall,
      and the components keep what they keep. */
  lemma CycleFacts(b: BotState, port: PortState, cfg: BotConfig, now: real, rand: nat -> real)
    requires Invariant(b) && Grid.RandomStream(rand)
    ensures var s := CycleSpec(b, port, cfg, now, rand);
      && (s.ok <==> !s.b.risk.killSwitch)
      && (b.risk.killSwitch ==> !s.ok && s.port == port)
      && (!s.ok ==> !s.b.running && s.b.grid == b.grid && s.b.dca == b.dca)
      && (s.ok ==> s.b.running == b.running)
      && (s.b.risk.killSwitch ==> !s.b.running)
      && b.risk.peak <= s.b.risk.peak && b.risk.maxDrawdown <= s.b.risk.maxDrawdown
      && Invariant(s.b)
  {
    Risk.CheckRiskFacts(b.risk, port, cfg.risk, cfg.trading.symbol, true);
    var c := Risk.CheckRiskSpec(b.risk, port, cfg.risk, cfg.trading.symbol, true);
    if c.ok {
      Grid.UpdateFacts(b.grid, c.port, now, rand);
      var g := Grid.UpdateSpec(b.grid, c.port, now, rand);
      Dca.UpdateFacts(b.dca, g.port, now, cfg.dca);
    }
  }

  /** The loop of `_main_loop` over the cycle times `times[i..]`: it runs
      while the bot is running. */
  function RunFrom(b: BotState, port: PortState, cfg: BotConfig, rand: nat -> real, times: seq<real>, i: nat): (BotState, PortState)
    requires i <= |times|
    decreases |times| - i
  {
    if !b.running || i == |times| then (b, port)
    else
      var s := CycleSpec(b, port, cfg, times[i], rand);
      RunFrom(s.b, s.port, cfg, rand, times, i + 1)
  }

  /** After the loop has run at least one cycle, a set kill switch means the
      bot is no longer running, and the high-water marks have not fallen. */
  lemma {:induction false} RunFacts(b: BotState, port: PortState, cfg: BotConfig, rand: nat -> real, times: seq<real>, i: nat)
    requires i <= |times| && Invariant(b) && Grid.RandomStream(rand)
    requires (b.risk.killSwitch ==> !b.running) || (b.running && i < |times|)
    ensures var (r, _) := RunFrom(b, port, cfg, rand, times, i);
      && (r.risk.killSwitch ==> !r.running)
      && b.risk.peak <= r.risk.peak && b.risk.maxDrawdown <= r.risk.maxDrawdown
      && Invariant(r)
    decreases |times| - i
  {
    if b.running && i < |times| {
      CycleFacts(b, port, cfg, times[i], rand);
      var s := CycleSpec(b, port, cfg, times[i], rand);
      RunFacts(s.b, s.port, cfg, rand, times, i + 1);
    }
  }

  // ---------------------------------------------------------------------------
  // Performance

  datatype Performance = Performance(
    initialCapital: real,
    currentBalance: real,
    totalReturnPercent: real,
    unrealizedPnl: real,
    realizedPnl: real,
    maxDrawdown: real,
    currentDrawdown: real,
    marginRatio: real)

  /** The return on `initial`, in percent. */
  function TotalReturn(balance: real, initial: real): real
    requires initial != 0.0
  {
    (balance - initial) / initial * 100.0
  }

  /** The return gives the balance back from the initial capital, and with
      a positive initial capital it is positive exactly when the balance has
      grown and zero exactly when it is unchanged. */
  lemma TotalReturnMeaning(balance: real, initial: real)
    requires initial != 0.0
    ensures balance == initial + TotalReturn(balance, initial) / 100.0 * initial
    ensures initial > 0.0 ==> (TotalReturn(balance, initial) > 0.0 <==> balance > initial)
    ensures TotalReturn(balance, initial) == 0.0 <==> balance == initial
  {
    var q := (balance - initial) / initial;
    assert q * initial == balance - initial;
    assert TotalReturn(balance, initial) / 100.0 == q;
    if initial > 0.0 {
      Numeric.RatioAbove(balance - initial, initial, 0.0);
    }
  }

  /** `get_performance_metrics` from the risk metrics just read: an error
      without metrics, and the division error with a zero initial capital. */
  function PerformanceOf(m: Option<Risk.RiskMetrics>, initial: real): (r: Result<Performance, string>)
    ensures r.Success? <==> m.Some? && initial != 0.0
    ensures r.Success? ==> r.value.initialCapital + r.value.totalReturnPercent / 100.0 * initial
                           == r.value.currentBalance == m.value.currentBalance
    ensures r.Success? ==> r.value.currentDrawdown == m.value.currentDrawdown
                           && r.value.maxDrawdown == m.value.maxDrawdown
  {
    if m.None? then Failure("Unable to get risk metrics")
    else if initial == 0.0 then Failure("float division by zero")
    else
      var v := m.value;
      TotalReturnMeaning(v.currentBalance, initial);
      Success(Performance(initial, v.currentBalance, TotalReturn(v.currentBalance, initial),
                          v.unrealizedPnl, v.realizedPnl, v.maxDrawdown, v.currentDrawdown, v.marginRatio))
  }

  // ---------------------------------------------------------------------------
  // The bot

  /** The bot object. Its engines and risk manager are built around the
      same exchange client, and the kill-switch callback is registered at
      construction. */
  class TradingBot {
    const cfg: BotConfig
    const client: Exchange
    const grid: Grid.GridEngine
    const dca: Dca.DcaEngine
    const risk: Risk.RiskManager
    /** The random source of the grid engine. */
    const rand: nat -> real

    var running: bool

    ghost predicate Valid()
      reads this, grid, dca, risk
    {
      && grid.client == client && dca.client == client && risk.client == client
      && grid.cfg == cfg.grid && grid.symbol == cfg.trading.symbol && grid.rand == rand
      && dca.cfg == cfg.dca && dca.symbol == cfg.trading.symbol
      && risk.cfg == cfg.risk && risk.symbol == cfg.trading.symbol && risk.killCallback
      && grid.Valid() && dca.Valid() && risk.Valid()
    }

    function State(): BotState
      reads this, grid, dca, risk
    {
      BotState(grid.State(), dca.State(), risk.State(), running)
    }

    constructor (cfg: BotConfig, client: Exchange, rand: nat -> real)
      requires Grid.RandomStream(rand)
      ensures Valid() && fresh(grid) && fresh(dca) && fresh(risk)
      ensures this.cfg == cfg && this.client == client && this.rand == rand
      ensures !running && !State().risk.killSwitch
      ensures State().grid == Grid.GridState([], false, 0.0, 0.0, 0)
      ensures State().dca == Dca.DcaState([], false, 0.0, 0.0, "none", [], 0.0)
    {
      this.cfg := cfg;
      this.client := client;
      this.rand := rand;
      grid := new Grid.GridEngine(client, cfg.grid, cfg.trading.symbol, rand);
      dca := new Dca.DcaEngine(client, cfg.dca, cfg.trading.symbol);
      risk := new Risk.RiskManager(client, cfg.risk, cfg.trading.symbol);
      running := false;
      new;
      risk.SetKillSwitchCallback();
    }

    method Start() returns (ok: bool)
      requires Valid()
      modifies this, grid, dca, risk, client
      ensures Valid()
      ensures Step(State(), client.st, ok) == StartSpec(old(State()), old(client.st), cfg)
    {
      if running {
        return true;
      }
      var connected := client.Connect();
      if !connected {
        return false;
      }
      var _ := client.SetLeverage(cfg.trading.leverage);
      var started := grid.StartGrid();
      if !started {
        return false;
      }
      started := dca.StartDca(StartTrend);
      if !started {
        return false;
      }
      running := true;
      return true;
    }

    method Stop() returns (ok: bool)
      requires Valid()
      modifies this, grid, dca, risk, client
      ensures Valid()
      ensures Step(State(), client.st, ok) == StopSpec(old(State()), old(client.st), cfg)
    {
      if !running {
        return true;
      }
      running := false;
      var _ := grid.StopGrid();
      var _ := dca.StopDca();
      client.Disconnect();
      return true;
    }

    method EmergencyStop() returns (ok: bool)
      requires Valid()
      modifies this, grid, dca, risk, client
      ensures Valid()
      ensures Step(State(), client.st, ok) == EmergencyStopSpec(old(State()), old(client.st), cfg)
    {
      var fired := risk.TriggerKillSwitch();
      if fired {
        OnKillSwitchCalled();
      }
      ok := Stop();
    }

    /** `_on_kill_switch`. */
    method OnKillSwitchCalled()
      modifies this
      ensures State() == OnKillSwitch(old(State()))
    {
      running := false;
    }

    /** One pass of `_main_loop`; the answer tells whether the loop goes on
        to sleep and run again. */
    method RunCycle(now: real) returns (ok: bool)
      requires Valid()
      modifies this, grid, dca, risk, client
      ensures Valid()
      ensures Step(State(), client.st, ok) == CycleSpec(old(State()), old(client.st), cfg, now, rand)
    {
      var passed, fired := risk.CheckRiskLimits();
      if fired {
        OnKillSwitchCalled();
      }
      if !passed {
        running := false;
        return false;
      }
      var _ := grid.UpdateGrid(now);
      var _ := dca.UpdateDca(now);
      LogAccountStatus();
      return true;
    }

    /** `_main_loop`, with the cycle times given in advance. */
    method MainLoop(times: seq<real>)
      requires Valid()
      modifies this, grid, dca, risk, client
      ensures Valid()
      ensures (State(), client.st) == RunFrom(old(State()), old(client.st), cfg, rand, times, 0)
    {
      var i := 0;
      while running && i < |times|
        invariant i <= |times| && Valid()
        invariant RunFrom(State(), client.st, cfg, rand, times, i)
               == RunFrom(old(State()), old(client.st), cfg, rand, times, 0)
        decreases |times| - i
      {
        var _ := RunCycle(times[i]);
        i := i + 1;
      }
    }

    /** `_log_account_status`: the reads it makes. */
    method LogAccountStatus()
      modifies client
      ensures client.st == LogStatusSpec(old(client.st))
    {
      var b := client.GetAccountBalance();
      if b.Some? {
        var coins := b.value;
        var i := 0;
        while i < |coins|
          invariant i <= |coins|
          invariant Risk.UsdtFrom(coins, i) == Risk.UsdtFrom(coins, 0)
        {
          if coins[i].coin == "USDT" {
            if coins[i].usedMargin.None? {
              return;
            }
            break;
          }
          i := i + 1;
        }
      }
      var _ := client.GetPositions();
    }

    method GetPerformanceMetrics() returns (r: Result<Performance, string>)
      requires Valid()
      modifies risk, client
      ensures Valid()
      ensures var rd := Risk.MetricsSpec(old(risk.State()), old(client.st), cfg.trading.symbol);
        && risk.State() == rd.r && client.st == rd.port
        && r == PerformanceOf(rd.metrics, cfg.trading.initialCapital)
    {
      var m := risk.GetRiskMetrics();
      if m.None? {
        return Failure("Unable to get risk metrics");
      }
      if cfg.trading.initialCapital == 0.0 {
        return Failure("float division by zero");
      }
      var initial := cfg.trading.initialCapital;
      var balance := m.value.currentBalance;
      var ret := (balance - initial) / initial * 100.0;
      r := Success(Performance(initial, balance, ret, m.value.unrealizedPnl, m.value.realizedPnl,
                               m.value.maxDrawdown, m.value.currentDrawdown, m.value.marginRatio));
    }

    predicate IsRunning()
      reads this
    {
      running
    }
  }
}
