/** The DCA (dollar cost averaging) engine.

    A ladder of trigger prices, progressively further from the price at
    which it was built. Each update sends a market order for every idle
    level whose trigger the price has crossed; a level whose order then
    disappears from the open-order list counts as filled and may add the
    next level of the ladder behind it. Placements are throttled by the
    number of DCA trades made so far. */
module Dca {
  import opened Wrappers
  import opened Numeric
  import opened Port
  import opened Config

  /** DCA orders are not placed while this many levels are active. */
  const ActiveCap: nat := 15
  /** Of every `ThrottleCycle` trades counted, only the first `ThrottleWins`
      are allowed. */
  const ThrottleCycle: nat := 20
  const ThrottleWins: nat := 13
  /** The smallest order size the ladder uses. */
  const MinOrderSize: real := 0.001

  datatype DcaLevel = DcaLevel(
    level: int,
    triggerPrice: real,
    quantity: real,
    orderId: Option<OrderId>,
    filled: bool,
    fillPrice: Option<real>,
    fillTime: Option<real>)

  /** A record of one accepted DCA order: its side, the price read right
      after it was placed, its quantity and its id. */
  datatype DcaTrade = DcaTrade(side: Side, price: Option<real>, quantity: real, orderId: OrderId)

  /** Every level is idle, active or filled. */
  predicate IsIdle(l: DcaLevel) { l.orderId.None? && !l.filled }
  predicate IsActive(l: DcaLevel) { l.orderId.Some? && !l.filled }

  function CountActive(ls: seq<DcaLevel>): (n: nat)
    ensures n <= |ls|
  {
    if |ls| == 0 then 0
    else CountActive(ls[..|ls| - 1]) + (if IsActive(ls[|ls| - 1]) then 1 else 0)
  }

  function CountFilled(ls: seq<DcaLevel>): (n: nat)
    ensures n <= |ls|
  {
    if |ls| == 0 then 0
    else CountFilled(ls[..|ls| - 1]) + (if ls[|ls| - 1].filled then 1 else 0)
  }

  function CountIdle(ls: seq<DcaLevel>): (n: nat)
    ensures n <= |ls|
  {
    if |ls| == 0 then 0
    else CountIdle(ls[..|ls| - 1]) + (if IsIdle(ls[|ls| - 1]) then 1 else 0)
  }

  /** Idle, active and filled levels partition the ladder. */
  lemma {:induction false} CountsPartition(ls: seq<DcaLevel>)
    ensures CountIdle(ls) + CountActive(ls) + CountFilled(ls) == |ls|
  {
    if |ls| > 0 {
      CountsPartition(ls[..|ls| - 1]);
    }
  }

  lemma {:induction false} CountActiveUpdate(ls: seq<DcaLevel>, i: nat, x: DcaLevel)
    requires i < |ls|
    ensures CountActive(ls[i := x]) + (if IsActive(ls[i]) then 1 else 0)
         == CountActive(ls) + (if IsActive(x) then 1 else 0)
  {
    var n := |ls| - 1;
    if i < n {
      assert ls[i := x][..n] == ls[..n][i := x];
      CountActiveUpdate(ls[..n], i, x);
    } else {
      assert ls[i := x][..n] == ls[..n];
    }
  }

  lemma CountActiveAppend(ls: seq<DcaLevel>, x: DcaLevel)
    ensures CountActive(ls + [x]) == CountActive(ls) + (if IsActive(x) then 1 else 0)
  {
    assert (ls + [x])[..|ls|] == ls;
  }

  /** A ladder whose levels are each at most as active as the matching level
      of another has at most as many active levels. */
  lemma {:induction false} CountActiveFewer(a: seq<DcaLevel>, b: seq<DcaLevel>)
    requires |a| == |b|
    requires forall k :: 0 <= k < |b| && IsActive(b[k]) ==> IsActive(a[k])
    ensures CountActive(b) <= CountActive(a)
  {
    if |a| > 0 {
      CountActiveFewer(a[..|a| - 1], b[..|b| - 1]);
    }
  }

  /** No ladder has active levels when none of its levels is active. */
  lemma {:induction false} CountActiveNone(ls: seq<DcaLevel>)
    requires forall k :: 0 <= k < |ls| ==> !IsActive(ls[k])
    ensures CountActive(ls) == 0
  {
    if |ls| > 0 {
      CountActiveNone(ls[..|ls| - 1]);
    }
  }

  /** What every ladder the engine holds satisfies: a level's number is not
      negative, a filled level has an order id and a fill time, and no fill
      price is ever recorded. */
  predicate WellFormed(ls: seq<DcaLevel>)
  {
    forall k :: 0 <= k < |ls| ==>
      && ls[k].level >= 0
      && (ls[k].filled ==> ls[k].orderId.Some? && ls[k].fillTime.Some?)
      && ls[k].fillPrice.None?
  }

  /** `b` is a later state of ladder `a`: levels are only appended, a level
      keeps its number, trigger and quantity, and a filled level is never
      changed again. */
  predicate Evolves(a: seq<DcaLevel>, b: seq<DcaLevel>)
  {
    && |a| <= |b|
    && forall k :: 0 <= k < |a| ==>
         && b[k].level == a[k].level && b[k].triggerPrice == a[k].triggerPrice
         && b[k].quantity == a[k].quantity
         && (a[k].filled ==> b[k] == a[k])
  }

  // ---------------------------------------------------------------------------
  // Trend and trigger

  /** Only the trend "down" buys; every other trend, "up" and "none"
      included, sells. */
  predicate Down(trend: string) { trend == "down" }

  function EntrySide(trend: string): (s: Side)
    ensures s == Buy <==> Down(trend)
  {
    if Down(trend) then Buy else Sell
  }

  /** `_should_trigger_dca`: in a downtrend a level fires once the price is at
      or below its trigger, otherwise once it is at or above it. */
  predicate ShouldTrigger(trend: string, trigger: real, price: real)
  {
    if Down(trend) then price <= trigger else price >= trigger
  }

  /** A level that fires at some price fires at every price further along
      the trend, and a level at exactly its trigger fires whatever the trend. */
  lemma TriggerFurther(trend: string, trigger: real, price: real, further: real)
    requires ShouldTrigger(trend, trigger, price)
    requires if Down(trend) then further <= price else further >= price
    ensures ShouldTrigger(trend, trigger, further)
    ensures ShouldTrigger(trend, trigger, trigger)
  {
  }

  // ---------------------------------------------------------------------------
  // The ladder

  /** The widening of the trigger distance of level `i`: 1.0, 1.2, 1.4, ... */
  function TriggerMultiplier(i: nat): (m: real)
    ensures m >= 1.0
  {
    1.0 + i as real * 0.2
  }

  /** The unrounded trigger of level `i` of a ladder built at `price`. */
  function LadderTrigger(cfg: DcaConfig, trend: string, price: real, i: nat): real
  {
    var step := (cfg.triggerPercent / 100.0) * TriggerMultiplier(i);
    if Down(trend) then price * (1.0 - step) else price * (1.0 + step)
  }

  function LadderLevel(cfg: DcaConfig, trend: string, price: real, i: nat): DcaLevel
  {
    DcaLevel(i, Round(LadderTrigger(cfg, trend, price, i), 2),
             Round(MaxReal(MinOrderSize, cfg.orderSize), 4), None, false, None, None)
  }

  /** The ladder `initialize_dca` builds at `price` for the engine's trend. */
  function Ladder(cfg: DcaConfig, trend: string, price: real): (ls: seq<DcaLevel>)
    ensures |ls| == RangeLength(cfg.maxOrders)
    ensures forall i :: 0 <= i < |ls| ==> ls[i] == LadderLevel(cfg, trend, price, i)
  {
    seq(RangeLength(cfg.maxOrders), i requires 0 <= i < RangeLength(cfg.maxOrders) => LadderLevel(cfg, trend, price, i))
  }

  lemma RoundMinOrderSize()
    ensures Round(MinOrderSize, 4) == MinOrderSize
  {
    assert Pow10(4) == 10000.0 by {
      assert Pow10(1) == 10.0;
      assert Pow10(2) == 100.0;
      assert Pow10(3) == 1000.0;
    }
    assert RoundHalfEven(MinOrderSize * 10000.0) == 10;
  }

  /** A fresh ladder is well formed and entirely idle, its levels are
      numbered from 0, and every order is at least the minimum size. */
  lemma LadderLevels(cfg: DcaConfig, trend: string, price: real)
    ensures var ls := Ladder(cfg, trend, price);
      && WellFormed(ls)
      && (forall i :: 0 <= i < |ls| ==> IsIdle(ls[i]) && ls[i].level == i && ls[i].fillTime.None?)
      && (forall i :: 0 <= i < |ls| ==> ls[i].quantity >= MinOrderSize)
      && CountActive(ls) == 0
  {
    var ls := Ladder(cfg, trend, price);
    CountActiveNone(ls);
    RoundMinOrderSize();
    RoundMonotone(MinOrderSize, MaxReal(MinOrderSize, cfg.orderSize), 4);
  }

  lemma LadderTriggerStep(cfg: DcaConfig, trend: string, price: real, i: nat, j: nat)
    requires i <= j && price > 0.0 && cfg.triggerPercent >= 0.0
    ensures Down(trend) ==> LadderTrigger(cfg, trend, price, j) <= LadderTrigger(cfg, trend, price, i) <= price
    ensures !Down(trend) ==> price <= LadderTrigger(cfg, trend, price, i) <= LadderTrigger(cfg, trend, price, j)
  {
    var c := cfg.triggerPercent / 100.0;
    var si := c * TriggerMultiplier(i);
    var sj := c * TriggerMultiplier(j);
    assert 0.0 <= si <= sj by {
      assert sj - si == c * (TriggerMultiplier(j) - TriggerMultiplier(i));
      MulNonNegativeBoth(c, TriggerMultiplier(j) - TriggerMultiplier(i));
      MulNonNegativeBoth(c, TriggerMultiplier(i));
    }
    if Down(trend) {
      MulPositiveMonotone(1.0 - sj, 1.0 - si, price);
      MulPositiveMonotone(1.0 - si, 1.0, price);
    } else {
      MulPositiveMonotone(1.0 + si, 1.0 + sj, price);
      MulPositiveMonotone(1.0, 1.0 + si, price);
    }
  }

  /** With a positive price and a non-negative percentage the ladder fans out
      from the price: in a downtrend every trigger is at or below the price
      and each lies at or below the one before it; in any other trend the
      mirror image. */
  lemma LadderSpread(cfg: DcaConfig, trend: string, price: real)
    requires price > 0.0 && cfg.triggerPercent >= 0.0
    ensures var ls := Ladder(cfg, trend, price);
      forall i, j :: 0 <= i <= j < |ls| ==>
        if Down(trend) then ls[j].triggerPrice <= ls[i].triggerPrice <= Round(price, 2)
        else Round(price, 2) <= ls[i].triggerPrice <= ls[j].triggerPrice
  {
    var ls := Ladder(cfg, trend, price);
    forall i, j | 0 <= i <= j < |ls|
      ensures if Down(trend) then ls[j].triggerPrice <= ls[i].triggerPrice <= Round(price, 2)
              else Round(price, 2) <= ls[i].triggerPrice <= ls[j].triggerPrice
    {
      var ti := LadderTrigger(cfg, trend, price, i);
      var tj := LadderTrigger(cfg, trend, price, j);
      LadderTriggerStep(cfg, trend, price, i, j);
      if Down(trend) {
        RoundMonotone(tj, ti, 2);
        RoundMonotone(ti, price, 2);
      } else {
        RoundMonotone(ti, tj, 2);
        RoundMonotone(price, ti, 2);
      }
    }
  }

  // ---------------------------------------------------------------------------
  // Engine state, and each operation as a function of state and exchange

  /** The engine's fields: the ladder, whether it runs, the price of the last
      update, the price the ladder was built at, the trend, the log of DCA
      trades, and the price seen by the last placement attempt (0.0 for
      none). */
  datatype DcaState = DcaState(
    levels: seq<DcaLevel>,
    active: bool,
    currentPrice: real,
    lastTriggerPrice: real,
    trend: string,
    trades: seq<DcaTrade>,
    lastDcaPrice: real)

  /** The engine state and exchange after an operation, and its answer. */
  datatype Outcome = Outcome(d: DcaState, port: PortState, ok: bool)

  /** The invariant the engine keeps: a well-formed ladder, never more active
      levels than trades made, and never more trades than the throttle lets
      through. */
  predicate Invariant(d: DcaState)
  {
    WellFormed(d.levels) && CountActive(d.levels) <= |d.trades| <= ThrottleWins
  }

  /** Under the invariant the active-order cap can never stop a placement:
      the throttle keeps the number of active levels below it. */
  lemma CapNeverBinds(d: DcaState)
    requires Invariant(d)
    ensures CountActive(d.levels) < ActiveCap
  {
  }

  /** `initialize_dca`. */
  function InitSpec(d: DcaState, port: PortState, cfg: DcaConfig): Outcome
  {
    if !cfg.enabled then Outcome(d, port, true)
    else
      var p := port.Price();
      var port' := port.AfterPrice();
      if Quote(p).None? then Outcome(d, port', false)
      else Outcome(d.(currentPrice := p.value, lastTriggerPrice := p.value,
                      levels := Ladder(cfg, d.trend, p.value)), port', true)
  }

  /** Disabled, initialising changes nothing and succeeds; without a price
      only the exchange's price queue changes; otherwise the ladder is
      replaced by a fresh one around the price, for the engine's trend. */
  lemma InitFacts(d: DcaState, port: PortState, cfg: DcaConfig)
    ensures var o := InitSpec(d, port, cfg);
      && (!cfg.enabled ==> o == Outcome(d, port, true))
      && (cfg.enabled ==> o.port == port.AfterPrice())
      && (o.ok <==> !cfg.enabled || Quote(port.Price()).Some?)
      && (!o.ok ==> o.d == d)
      && (cfg.enabled && o.ok ==>
            && o.d == d.(currentPrice := port.Price().value, lastTriggerPrice := port.Price().value,
                         levels := Ladder(cfg, d.trend, port.Price().value))
            && |o.d.levels| == RangeLength(cfg.maxOrders)
            && CountActive(o.d.levels) == 0)
      && (Invariant(d) ==> Invariant(o.d))
  {
    if cfg.enabled && Quote(port.Price()).Some? {
      LadderLevels(cfg, d.trend, port.Price().value);
    }
  }

  /** `start_dca(trend)`: record the trend, build a ladder if there is none,
      and mark the engine active. */
  function StartSpec(d: DcaState, port: PortState, cfg: DcaConfig, trend: string): Outcome
  {
    if !cfg.enabled then Outcome(d, port, true)
    else
      var d1 := d.(trend := trend);
      if |d1.levels| == 0 then
        var init := InitSpec(d1, port, cfg);
        if !init.ok then init else Outcome(init.d.(active := true), init.port, true)
      else Outcome(d1.(active := true), port, true)
  }

  /** Starting fails only when a ladder has to be built and no price is
      available, and then leaves the engine as it was except for the trend.
      An existing ladder is kept as it is, even when it was built for
      another trend. */
  lemma StartFacts(d: DcaState, port: PortState, cfg: DcaConfig, trend: string)
    ensures var o := StartSpec(d, port, cfg, trend);
      && (!cfg.enabled ==> o == Outcome(d, port, true))
      && (!o.ok <==> cfg.enabled && |d.levels| == 0 && Quote(port.Price()).None?)
      && (!o.ok ==> o.d == d.(trend := trend) && o.port == port.AfterPrice())
      && (cfg.enabled && o.ok ==> o.d.active && o.d.trend == trend)
      && (cfg.enabled && |d.levels| > 0 ==> o == Outcome(d.(trend := trend, active := true), port, true))
      && o.d.trades == d.trades
      && (Invariant(d) ==> Invariant(o.d))
  {
    InitFacts(d.(trend := trend), port, cfg);
  }

  function CancelRequests(ls: seq<DcaLevel>): seq<Request>
  {
    if |ls| == 0 then []
    else CancelRequests(ls[..|ls| - 1])
         + (if IsActive(ls[|ls| - 1]) then [Cancel(ls[|ls| - 1].orderId.value)] else [])
  }

  lemma CancelRequestsSnoc(ls: seq<DcaLevel>, k: nat)
    requires k < |ls|
    ensures CancelRequests(ls[..k + 1])
         == CancelRequests(ls[..k]) + (if IsActive(ls[k]) then [Cancel(ls[k].orderId.value)] else [])
  {
    assert ls[..k + 1][..k] == ls[..k];
  }

  /** The number of active levels among the first `k`: the cancellations sent
      before level `k` is visited. */
  function ActiveBefore(ls: seq<DcaLevel>, k: nat): (n: nat)
    requires k <= |ls|
    ensures n <= k
  {
    if k == 0 then 0 else ActiveBefore(ls, k - 1) + (if IsActive(ls[k - 1]) then 1 else 0)
  }

  /** A level after its cancellation got `ok`: only an active level is
      cancelled, and its id is dropped only when the exchange confirmed. */
  function Cancelled(l: DcaLevel, ok: bool): DcaLevel
  {
    if IsActive(l) && ok then l.(orderId := None) else l
  }

  /** `stop_dca`'s cancellation loop after visiting the first `n` levels:
      the ladder and the exchange. */
  function CancelUpTo(ls: seq<DcaLevel>, n: nat, port: PortState): (r: (seq<DcaLevel>, PortState))
    requires n <= |ls|
    ensures |r.0| == |ls|
  {
    if n == 0 then (ls, port)
    else
      var (cur, p) := CancelUpTo(ls, n - 1, port);
      var l := cur[n - 1];
      if IsActive(l) then
        var ok := p.CancelReply();
        (if ok then cur[n - 1 := l.(orderId := None)] else cur, p.Issue(Cancel(l.orderId.value)))
      else (cur, p)
  }

  /** The cancellation loop has not touched the levels it has not reached. */
  lemma {:induction false} CancelUpToRest(ls: seq<DcaLevel>, n: nat, port: PortState)
    requires n <= |ls|
    ensures var r := CancelUpTo(ls, n, port).0;
      forall k :: n <= k < |ls| ==> r[k] == ls[k]
  {
    if n > 0 {
      CancelUpToRest(ls, n - 1, port);
    }
  }

  /** The cancellation loop consumes one cancellation reply per active level. */
  lemma {:induction false} CancelUpToReplies(ls: seq<DcaLevel>, n: nat, port: PortState)
    requires n <= |ls|
    ensures CancelUpTo(ls, n, port).1.cancelReplies == Skip(port.cancelReplies, ActiveBefore(ls, n))
  {
    if n > 0 {
      var m := n - 1;
      CancelUpToReplies(ls, m, port);
      CancelUpToRest(ls, m, port);
      if IsActive(ls[m]) {
        SkipNextFlag(port.cancelReplies, ActiveBefore(ls, m));
      }
    }
  }

  /** The cancellation loop sends one Cancel per active level, in order. */
  lemma {:induction false} CancelUpToPort(ls: seq<DcaLevel>, n: nat, port: PortState)
    requires n <= |ls|
    ensures CancelUpTo(ls, n, port).1 == IssueAll(port, CancelRequests(ls[..n]))
  {
    if n > 0 {
      var m := n - 1;
      CancelUpToPort(ls, m, port);
      CancelUpToRest(ls, m, port);
      assert ls[..n][..m] == ls[..m];
      if IsActive(ls[m]) {
        IssueAllSnoc(port, CancelRequests(ls[..m]), Cancel(ls[m].orderId.value));
      } else {
        assert CancelRequests(ls[..m]) + [] == CancelRequests(ls[..m]);
      }
    }
  }

  /** The cancellation loop clears exactly the ids whose cancellation was
      confirmed, and leaves every other level alone. */
  lemma {:induction false} CancelUpToLevel(ls: seq<DcaLevel>, n: nat, port: PortState, k: nat)
    requires k < n <= |ls|
    ensures CancelUpTo(ls, n, port).0[k] == Cancelled(ls[k], NthFlag(port.cancelReplies, ActiveBefore(ls, k)))
  {
    var m := n - 1;
    if k < m {
      CancelUpToLevel(ls, m, port, k);
    } else {
      CancelUpToRest(ls, m, port);
      CancelUpToReplies(ls, m, port);
      SkipNextFlag(port.cancelReplies, ActiveBefore(ls, m));
    }
  }

  lemma CancelUpToLevels(ls: seq<DcaLevel>, port: PortState)
    ensures var r := CancelUpTo(ls, |ls|, port).0;
      forall k :: 0 <= k < |ls| ==>
        r[k] == Cancelled(ls[k], NthFlag(port.cancelReplies, ActiveBefore(ls, k)))
  {
    forall k | 0 <= k < |ls|
      ensures CancelUpTo(ls, |ls|, port).0[k] == Cancelled(ls[k], NthFlag(port.cancelReplies, ActiveBefore(ls, k)))
    {
      CancelUpToLevel(ls, |ls|, port, k);
    }
  }

  /** `stop_dca`: one cancellation per active level, then inactive; it always
      succeeds. */
  function StopSpec(d: DcaState, port: PortState, cfg: DcaConfig): Outcome
  {
    if !cfg.enabled then Outcome(d, port, true)
    else
      var (ls, p) := CancelUpTo(d.levels, |d.levels|, port);
      Outcome(d.(levels := ls, active := false), p, true)
  }

  /** Stopping sends one cancellation per active level, drops an id only on
      a confirmed cancellation, never touches another level, and keeps the
      invariant. */
  lemma StopFacts(d: DcaState, port: PortState, cfg: DcaConfig)
    ensures var o := StopSpec(d, port, cfg);
      && o.ok
      && (!cfg.enabled ==> o == Outcome(d, port, true))
      && (cfg.enabled ==> !o.d.active && o.port == IssueAll(port, CancelRequests(d.levels)))
      && o.d == d.(levels := o.d.levels, active := o.d.active)
      && Evolves(d.levels, o.d.levels) && |o.d.levels| == |d.levels|
      && (cfg.enabled ==> forall k :: 0 <= k < |d.levels| ==>
            o.d.levels[k] == Cancelled(d.levels[k], NthFlag(port.cancelReplies, ActiveBefore(d.levels, k))))
      && (forall k :: 0 <= k < |d.levels| && !IsActive(d.levels[k]) ==> o.d.levels[k] == d.levels[k])
      && (forall k :: 0 <= k < |d.levels| && o.d.levels[k] != d.levels[k] ==>
            o.d.levels[k] == d.levels[k].(orderId := None))
      && (Invariant(d) ==> Invariant(o.d))
  {
    if cfg.enabled {
      CancelUpToLevels(d.levels, port);
      CancelUpToPort(d.levels, |d.levels|, port);
      assert d.levels[..|d.levels|] == d.levels;
      CountActiveFewer(d.levels, CancelUpTo(d.levels, |d.levels|, port).0);
    }
  }

  // ---------------------------------------------------------------------------
  // Placing DCA orders

  /** Whether the move from `last` to `price` is more than 8% of `last`, too
      large for a DCA order; no previous price or no current price never is. */
  predicate TooVolatile(price: Option<real>, last: real)
  {
    Quote(price).Some? && last > 0.0 && Abs(price.value - last) > 0.08 * last
  }

  /** The guard above is the relative change `|price - last| / last` compared
      with 0.08; a negative `last` makes that ratio negative, so only a
      positive one can trip it. */
  lemma TooVolatileMeaning(price: Option<real>, last: real)
    ensures TooVolatile(price, last)
        <==> Quote(price).Some? && last != 0.0 && Abs(price.value - last) / last > 0.08
  {
    if Quote(price).Some? && last != 0.0 {
      if last > 0.0 {
        RatioAbove(Abs(price.value - last), last, 0.08);
      } else {
        RatioNegative(Abs(price.value - last), last);
      }
    }
  }

  /** Whether the throttle lets a placement through after `n` trades. */
  predicate ThrottleOpen(n: nat)
  {
    n % ThrottleCycle < ThrottleWins
  }

  /** The throttle never lets the trade log grow past `ThrottleWins`: once it
      holds that many, it stays closed. */
  lemma ThrottleBound(n: nat)
    requires n <= ThrottleWins
    ensures ThrottleOpen(n) <==> n < ThrottleWins
  {
  }

  /** What `update_dca`'s trigger loop works on: the ladder, the trade log,
      the price seen by the last placement attempt, and the exchange. */
  datatype Sweep = Sweep(levels: seq<DcaLevel>, trades: seq<DcaTrade>, lastDcaPrice: real, port: PortState)

  /** A placement attempt's result: the sweep after it, and the order id when
      an order was accepted. */
  datatype Placement = Placement(s: Sweep, id: Option<OrderId>)

  /** `_place_dca_order` for an order of `qty`: the cap, the volatility guard
      and the throttle, then a market order on the trend's side, recorded in
      the trade log when accepted. */
  function PlaceStep(s: Sweep, qty: real, trend: string): Placement
  {
    if CountActive(s.levels) >= ActiveCap then Placement(s, None)
    else
      var price := s.port.Price();
      var port1 := s.port.AfterPrice();
      if TooVolatile(price, s.lastDcaPrice) then Placement(s.(port := port1), None)
      else
        var s1 := s.(port := port1, lastDcaPrice := PriceOrZero(price));
        if !ThrottleOpen(|s.trades|) then Placement(s1, None)
        else
          var side := EntrySide(trend);
          var id := port1.PlaceReply();
          var port2 := port1.Issue(Place(side, Market, qty, None));
          if id.None? then Placement(s1.(port := port2), None)
          else
            var trade := DcaTrade(side, port2.Price(), qty, id.value);
            Placement(s1.(port := port2.AfterPrice(), trades := s.trades + [trade]), id)
  }

  /** The guards of a placement: at the cap nothing happens, on a volatile
      price only the price is read, and with the throttle closed the price
      is remembered but no order is sent. */
  lemma PlaceGuards(s: Sweep, qty: real, trend: string)
    ensures var r := PlaceStep(s, qty, trend);
      && (CountActive(s.levels) >= ActiveCap ==> r == Placement(s, None))
      && (CountActive(s.levels) < ActiveCap && TooVolatile(s.port.Price(), s.lastDcaPrice) ==>
            r == Placement(s.(port := s.port.AfterPrice()), None))
      && ((CountActive(s.levels) < ActiveCap && !TooVolatile(s.port.Price(), s.lastDcaPrice)
           && !ThrottleOpen(|s.trades|)) ==>
            r == Placement(s.(port := s.port.AfterPrice(), lastDcaPrice := PriceOrZero(s.port.Price())), None))
  {
  }

  /** A placement leaves the ladder alone and records a trade exactly when it
      returns an id: one trade, on the trend's side, of the quantity asked
      for, carrying that id, and only while the throttle was open. */
  lemma PlaceFacts(s: Sweep, qty: real, trend: string)
    ensures var r := PlaceStep(s, qty, trend);
      && r.s.levels == s.levels
      && r.s.port.openOrders == s.port.openOrders
      && (r.id.None? ==> r.s.trades == s.trades)
      && (r.id.Some? ==>
            && |r.s.trades| == |s.trades| + 1 && r.s.trades[..|s.trades|] == s.trades
            && r.s.trades[|s.trades|].side == EntrySide(trend)
            && r.s.trades[|s.trades|].quantity == qty
            && r.s.trades[|s.trades|].orderId == r.id.value
            && ThrottleOpen(|s.trades|) && CountActive(s.levels) < ActiveCap)
  {
    var r := PlaceStep(s, qty, trend);
    if r.id.Some? {
      assert r.s.trades == s.trades + [r.s.trades[|s.trades|]];
    }
  }

  /** One iteration of the trigger loop, at position `i`: an idle level whose
      trigger the price has crossed gets the id of an accepted placement. */
  function TriggerAt(s: Sweep, trend: string, price: real, i: nat): (r: Sweep)
    requires i < |s.levels|
    ensures |r.levels| == |s.levels|
  {
    var l := s.levels[i];
    if IsIdle(l) && ShouldTrigger(trend, l.triggerPrice, price) then
      var p := PlaceStep(s, l.quantity, trend);
      PlaceFacts(s, l.quantity, trend);
      if p.id.Some? then p.s.(levels := p.s.levels[i := l.(orderId := p.id)]) else p.s
    else s
  }

  /** The trigger loop after visiting the first `n` levels. */
  function TriggerUpTo(s0: Sweep, trend: string, price: real, n: nat): (r: Sweep)
    requires n <= |s0.levels|
    ensures |r.levels| == |s0.levels|
  {
    if n == 0 then s0
    else TriggerAt(TriggerUpTo(s0, trend, price, n - 1), trend, price, n - 1)
  }

  /** `b` is level `a` after the trigger loop: unchanged, or an idle level
      whose trigger was crossed that now has an order id. */
  predicate Triggered(a: DcaLevel, b: DcaLevel, trend: string, price: real)
  {
    || b == a
    || (IsIdle(a) && ShouldTrigger(trend, a.triggerPrice, price)
        && b.orderId.Some? && b == a.(orderId := b.orderId))
  }

  /** One visit changes at most the visited level, and gives it an id exactly
      when it records a trade carrying that id. */
  lemma TriggerAtFacts(s: Sweep, trend: string, price: real, i: nat)
    requires i < |s.levels|
    ensures var r := TriggerAt(s, trend, price, i);
      && (forall k :: 0 <= k < |s.levels| && k != i ==> r.levels[k] == s.levels[k])
      && Triggered(s.levels[i], r.levels[i], trend, price)
      && r.port.openOrders == s.port.openOrders
      && CountActive(r.levels) + |s.trades| == CountActive(s.levels) + |r.trades|
      && |s.trades| <= |r.trades| <= |s.trades| + 1
      && r.trades[..|s.trades|] == s.trades
      && (|r.trades| > |s.trades| ==>
            && ThrottleOpen(|s.trades|)
            && r.trades[|s.trades|].side == EntrySide(trend)
            && r.levels[i].orderId == Some(r.trades[|s.trades|].orderId))
  {
    var l := s.levels[i];
    if IsIdle(l) && ShouldTrigger(trend, l.triggerPrice, price) {
      var p := PlaceStep(s, l.quantity, trend);
      PlaceFacts(s, l.quantity, trend);
      if p.id.Some? {
        CountActiveUpdate(s.levels, i, l.(orderId := p.id));
      }
    }
  }

  /** The trigger loop has not touched the levels it has not reached. */
  lemma {:induction false} TriggerUpToRest(s0: Sweep, trend: string, price: real, n: nat)
    requires n <= |s0.levels|
    ensures var r := TriggerUpTo(s0, trend, price, n);
      forall k :: n <= k < |s0.levels| ==> r.levels[k] == s0.levels[k]
  {
    if n > 0 {
      TriggerUpToRest(s0, trend, price, n - 1);
      TriggerAtFacts(TriggerUpTo(s0, trend, price, n - 1), trend, price, n - 1);
    }
  }

  /** The level at position `k` once the trigger loop has passed it. */
  lemma {:induction false} TriggerUpToLevel(s0: Sweep, trend: string, price: real, n: nat, k: nat)
    requires k < n <= |s0.levels|
    ensures Triggered(s0.levels[k], TriggerUpTo(s0, trend, price, n).levels[k], trend, price)
  {
    var s := TriggerUpTo(s0, trend, price, n - 1);
    TriggerAtFacts(s, trend, price, n - 1);
    if k < n - 1 {
      TriggerUpToLevel(s0, trend, price, n - 1, k);
    } else {
      TriggerUpToRest(s0, trend, price, n - 1);
    }
  }

  /** The trigger loop adds exactly one trade per level it activates. */
  lemma {:induction false} TriggerUpToCount(s0: Sweep, trend: string, price: real, n: nat)
    requires n <= |s0.levels|
    ensures var r := TriggerUpTo(s0, trend, price, n);
      CountActive(r.levels) + |s0.trades| == CountActive(s0.levels) + |r.trades|
  {
    if n > 0 {
      var s := TriggerUpTo(s0, trend, price, n - 1);
      TriggerUpToCount(s0, trend, price, n - 1);
      TriggerAtFacts(s, trend, price, n - 1);
      assert TriggerUpTo(s0, trend, price, n) == TriggerAt(s, trend, price, n - 1);
    }
  }

  /** The trigger loop never takes the trade log past the throttle's limit. */
  lemma {:induction false} TriggerUpToThrottle(s0: Sweep, trend: string, price: real, n: nat)
    requires n <= |s0.levels| && |s0.trades| <= ThrottleWins
    ensures |TriggerUpTo(s0, trend, price, n).trades| <= ThrottleWins
  {
    if n > 0 {
      var s := TriggerUpTo(s0, trend, price, n - 1);
      TriggerUpToThrottle(s0, trend, price, n - 1);
      TriggerAtFacts(s, trend, price, n - 1);
      ThrottleBound(|s.trades|);
    }
  }

  /** The trigger loop only appends to the trade log, and every trade it adds
      is on the trend's side. */
  lemma {:induction false} TriggerUpToLog(s0: Sweep, trend: string, price: real, n: nat)
    requires n <= |s0.levels|
    ensures var r := TriggerUpTo(s0, trend, price, n);
      && |s0.trades| <= |r.trades| && r.trades[..|s0.trades|] == s0.trades
      && (forall j :: |s0.trades| <= j < |r.trades| ==> r.trades[j].side == EntrySide(trend))
      && r.port.openOrders == s0.port.openOrders
  {
    if n > 0 {
      var s := TriggerUpTo(s0, trend, price, n - 1);
      TriggerUpToLog(s0, trend, price, n - 1);
      TriggerAtFacts(s, trend, price, n - 1);
      var r := TriggerAt(s, trend, price, n - 1);
      assert r.trades[..|s0.trades|] == s.trades[..|s0.trades|];
    }
  }

  /** The whole trigger loop: every level is unchanged or an idle level whose
      trigger the price crossed and which now has an order id, and the trade
      log grows by exactly as many trades as levels became active. */
  lemma TriggerFacts(s0: Sweep, trend: string, price: real)
    ensures var r := TriggerUpTo(s0, trend, price, |s0.levels|);
      && (forall k :: 0 <= k < |s0.levels| ==> Triggered(s0.levels[k], r.levels[k], trend, price))
      && CountActive(r.levels) + |s0.trades| == CountActive(s0.levels) + |r.trades|
      && |s0.trades| <= |r.trades| && r.trades[..|s0.trades|] == s0.trades
      && (forall j :: |s0.trades| <= j < |r.trades| ==> r.trades[j].side == EntrySide(trend))
      && (|s0.trades| <= ThrottleWins ==> |r.trades| <= ThrottleWins)
      && r.port.openOrders == s0.port.openOrders
  {
    forall k | 0 <= k < |s0.levels|
      ensures Triggered(s0.levels[k], TriggerUpTo(s0, trend, price, |s0.levels|).levels[k], trend, price)
    {
      TriggerUpToLevel(s0, trend, price, |s0.levels|, k);
    }
    TriggerUpToCount(s0, trend, price, |s0.levels|);
    TriggerUpToLog(s0, trend, price, |s0.levels|);
    if |s0.trades| <= ThrottleWins {
      TriggerUpToThrottle(s0, trend, price, |s0.levels|);
    }
  }

  // ---------------------------------------------------------------------------
  // Reconciling against the open orders

  /** A level whose order has disappeared from the open orders. */
  predicate Fires(l: DcaLevel, ids: set<string>)
  {
    l.orderId.Some? && l.orderId.value !in ids && !l.filled
  }

  /** The level after reconciliation at time `now`. */
  function Reconciled(l: DcaLevel, ids: set<string>, now: real): DcaLevel
  {
    if Fires(l, ids) then l.(filled := true, fillTime := Some(now)) else l
  }

  /** The unrounded trigger of the level that follows a filled level whose
      trigger was `prev`: one more step of the trigger percentage. */
  function NextTrigger(cfg: DcaConfig, trend: string, prev: real): real
  {
    if Down(trend) then prev * (1.0 - cfg.triggerPercent / 100.0)
    else prev * (1.0 + cfg.triggerPercent / 100.0)
  }

  /** A rule giving the trigger of the next level from the trigger of the
      filled one. */
  type TriggerRule = real -> real

  /** The engine's rule: the next trigger rounded to cents. */
  function NextRule(cfg: DcaConfig, trend: string): TriggerRule
  {
    prev => Round(NextTrigger(cfg, trend, prev), 2)
  }

  /** With a positive trigger and a percentage in [0, 100], the next level
      lies one step further along the trend, also after rounding. */
  lemma NextTriggerFurther(cfg: DcaConfig, trend: string, prev: real)
    requires prev > 0.0 && 0.0 <= cfg.triggerPercent <= 100.0
    ensures Down(trend) ==> 0.0 <= NextRule(cfg, trend)(prev) <= Round(prev, 2)
    ensures !Down(trend) ==> NextRule(cfg, trend)(prev) >= Round(prev, 2)
  {
    var c := cfg.triggerPercent / 100.0;
    var t := NextTrigger(cfg, trend, prev);
    if Down(trend) {
      MulPositiveMonotone(1.0 - c, 1.0, prev);
      MulNonNegative(1.0 - c, prev);
      RoundMonotone(t, prev, 2);
      RoundMonotone(0.0, t, 2);
      assert Round(0.0, 2) == 0.0;
    } else {
      MulPositiveMonotone(1.0, 1.0 + c, prev);
      RoundMonotone(prev, t, 2);
    }
  }

  /** The level `_create_next_dca_level` adds after the filled level `f`:
      numbered one past it, idle, at the rule's trigger, with the configured
      order size as it is. */
  function NextLevel(f: DcaLevel, cfg: DcaConfig, rule: TriggerRule): DcaLevel
  {
    DcaLevel(f.level + 1, rule(f.triggerPrice), cfg.orderSize, None, false, None, None)
  }

  /** `_create_next_dca_level`: the next level joins the ladder unless it
      would be numbered `max_orders` or more. */
  function CreateNext(ls: seq<DcaLevel>, f: DcaLevel, cfg: DcaConfig, rule: TriggerRule): seq<DcaLevel>
  {
    if f.level + 1 >= cfg.maxOrders then ls else ls + [NextLevel(f, cfg, rule)]
  }

  /** Whether a fill of `l` is followed by a next level. */
  predicate Spawns(l: DcaLevel, cfg: DcaConfig)
  {
    l.level < cfg.maxOrders - 1
  }

  /** The guard inside `_create_next_dca_level` never stops a level its
      caller asked for: the caller's guard is the same test. */
  lemma CreateNextGuard(ls: seq<DcaLevel>, f: DcaLevel, cfg: DcaConfig, rule: TriggerRule)
    requires Spawns(f, cfg)
    ensures CreateNext(ls, f, cfg, rule) == ls + [NextLevel(f, cfg, rule)]
  {
  }

  /** One iteration of `_check_filled_orders`' loop, at position `i`. */
  function Visit(ls: seq<DcaLevel>, ids: set<string>, now: real, cfg: DcaConfig, rule: TriggerRule, i: nat): seq<DcaLevel>
    requires i < |ls|
  {
    if Fires(ls[i], ids) then
      var f := Reconciled(ls[i], ids, now);
      var ls1 := ls[i := f];
      if Spawns(f, cfg) then CreateNext(ls1, f, cfg, rule) else ls1
    else ls
  }

  /** The number of active levels from position `i` on. */
  function ActiveFrom(ls: seq<DcaLevel>, i: nat): nat
    decreases |ls| - i
  {
    if i >= |ls| then 0 else (if IsActive(ls[i]) then 1 else 0) + ActiveFrom(ls, i + 1)
  }

  lemma {:induction false} ActiveFromAppend(ls: seq<DcaLevel>, x: DcaLevel, j: nat)
    requires j <= |ls| && !IsActive(x)
    ensures ActiveFrom(ls + [x], j) == ActiveFrom(ls, j)
    decreases |ls| - j
  {
    if j < |ls| {
      ActiveFromAppend(ls, x, j + 1);
    } else {
      assert ActiveFrom(ls + [x], j + 1) == 0;
    }
  }

  lemma {:induction false} ActiveFromUpdate(ls: seq<DcaLevel>, i: nat, f: DcaLevel, j: nat)
    requires i < j <= |ls|
    ensures ActiveFrom(ls[i := f], j) == ActiveFrom(ls, j)
    decreases |ls| - j
  {
    if j < |ls| {
      ActiveFromUpdate(ls, i, f, j + 1);
    }
  }

  /** A visit reconciles the level at `i`, leaves the other levels alone and
      appends at most the next level of a fill; the active levels still ahead
      plus the levels still to visit shrink, so the loop ends. */
  lemma VisitFacts(ls: seq<DcaLevel>, ids: set<string>, now: real, cfg: DcaConfig, rule: TriggerRule, i: nat)
    requires i < |ls|
    ensures var r := Visit(ls, ids, now, cfg, rule, i);
      && |ls| <= |r| <= |ls| + 1
      && r[i] == Reconciled(ls[i], ids, now)
      && (forall k :: 0 <= k < |ls| && k != i ==> r[k] == ls[k])
      && (|r| > |ls| <==> Fires(ls[i], ids) && Spawns(ls[i], cfg))
      && (|r| > |ls| ==> r == ls[i := r[i]] + [NextLevel(ls[i], cfg, rule)])
      && ActiveFrom(r, i + 1) + (|r| - (i + 1)) < ActiveFrom(ls, i) + (|ls| - i)
  {
    var r := Visit(ls, ids, now, cfg, rule, i);
    if Fires(ls[i], ids) {
      var f := Reconciled(ls[i], ids, now);
      ActiveFromUpdate(ls, i, f, i + 1);
      if Spawns(f, cfg) {
        ActiveFromAppend(ls[i := f], NextLevel(f, cfg, rule), i + 1);
      }
    }
  }

  /** `_check_filled_orders`' loop from position `i` on. The ladder may grow
      while it runs, and the levels it appends are visited too. */
  function CheckFrom(ls: seq<DcaLevel>, ids: set<string>, now: real, cfg: DcaConfig, rule: TriggerRule, i: nat): seq<DcaLevel>
    requires i <= |ls|
    decreases ActiveFrom(ls, i) + (|ls| - i)
  {
    if i == |ls| then ls
    else
      VisitFacts(ls, ids, now, cfg, rule, i);
      CheckFrom(Visit(ls, ids, now, cfg, rule, i), ids, now, cfg, rule, i + 1)
  }

  /** `_check_filled_orders`: nothing to do when the open orders are
      unavailable or empty; otherwise one reconciliation pass. */
  function CheckSpec(ls: seq<DcaLevel>, port: PortState, now: real, cfg: DcaConfig, rule: TriggerRule): (seq<DcaLevel>, PortState)
  {
    var ids := Snapshot(port.OpenOrders());
    var port1 := port.AfterOpenOrders();
    if ids.None? then (ls, port1) else (CheckFrom(ls, ids.value, now, cfg, rule, 0), port1)
  }

  /** The next levels spawned by the fills among the first `n` levels of
      `ls`, in ladder order. */
  function Spawned(ls: seq<DcaLevel>, ids: set<string>, cfg: DcaConfig, rule: TriggerRule, n: nat): seq<DcaLevel>
    requires n <= |ls|
  {
    if n == 0 then []
    else Spawned(ls, ids, cfg, rule, n - 1)
         + (if Fires(ls[n - 1], ids) && Spawns(ls[n - 1], cfg) then [NextLevel(ls[n - 1], cfg, rule)] else [])
  }

  /** `ls` with its first `n` levels reconciled. */
  function ReconciledUpTo(ls: seq<DcaLevel>, ids: set<string>, now: real, n: nat): (r: seq<DcaLevel>)
    ensures |r| == |ls|
    ensures forall k :: 0 <= k < |ls| ==> r[k] == if k < n then Reconciled(ls[k], ids, now) else ls[k]
  {
    seq(|ls|, k requires 0 <= k < |ls| => if k < n then Reconciled(ls[k], ids, now) else ls[k])
  }

  /** The ladder when the loop reaches position `i` of the ladder it started
      with. */
  function Midway(ls: seq<DcaLevel>, ids: set<string>, now: real, cfg: DcaConfig, rule: TriggerRule, i: nat): seq<DcaLevel>
    requires i <= |ls|
  {
    ReconciledUpTo(ls, ids, now, i) + Spawned(ls, ids, cfg, rule, i)
  }

  lemma MidwayStep(ls: seq<DcaLevel>, ids: set<string>, now: real, cfg: DcaConfig, rule: TriggerRule, i: nat)
    requires i < |ls|
    ensures Visit(Midway(ls, ids, now, cfg, rule, i), ids, now, cfg, rule, i) == Midway(ls, ids, now, cfg, rule, i + 1)
  {
    var a := ReconciledUpTo(ls, ids, now, i);
    var b := Spawned(ls, ids, cfg, rule, i);
    var a' := ReconciledUpTo(ls, ids, now, i + 1);
    var f := Reconciled(ls[i], ids, now);
    assert a[i := f] == a';
    assert (a + b)[i := f] == a' + b;
    assert (a + b)[i] == ls[i];
    if Fires(ls[i], ids) && Spawns(ls[i], cfg) {
      assert a' + b + [NextLevel(f, cfg, rule)] == a' + (b + [NextLevel(ls[i], cfg, rule)]);
    } else {
      assert b + [] == b;
    }
  }

  /** The levels a pass spawns are idle; each is numbered below `max_orders`
      and has the configured order size. */
  lemma {:induction false} SpawnedIdle(ls: seq<DcaLevel>, ids: set<string>, cfg: DcaConfig, rule: TriggerRule, n: nat)
    requires n <= |ls|
    ensures forall j :: 0 <= j < |Spawned(ls, ids, cfg, rule, n)| ==>
      SpawnedLevel(Spawned(ls, ids, cfg, rule, n)[j], cfg)
  {
    if n > 0 {
      SpawnedIdle(ls, ids, cfg, rule, n - 1);
      var prev := Spawned(ls, ids, cfg, rule, n - 1);
      var sp := Spawned(ls, ids, cfg, rule, n);
      forall j | 0 <= j < |sp|
        ensures SpawnedLevel(sp[j], cfg)
      {
        if j < |prev| {
          assert sp[j] == prev[j];
        } else {
          assert sp == prev + [NextLevel(ls[n - 1], cfg, rule)];
        }
      }
    }
  }

  /** In a ladder with no negative level numbers, every spawned level is
      numbered at least 1. */
  lemma {:induction false} SpawnedNumbered(ls: seq<DcaLevel>, ids: set<string>, cfg: DcaConfig, rule: TriggerRule, n: nat)
    requires n <= |ls| && WellFormed(ls)
    ensures forall j :: 0 <= j < |Spawned(ls, ids, cfg, rule, n)| ==>
      Spawned(ls, ids, cfg, rule, n)[j].level >= 1
  {
    if n > 0 {
      SpawnedNumbered(ls, ids, cfg, rule, n - 1);
      var prev := Spawned(ls, ids, cfg, rule, n - 1);
      var sp := Spawned(ls, ids, cfg, rule, n);
      forall j | 0 <= j < |sp|
        ensures sp[j].level >= 1
      {
        if j < |prev| {
          assert sp[j] == prev[j];
        } else {
          assert sp == prev + [NextLevel(ls[n - 1], cfg, rule)];
        }
      }
    }
  }

  /** The shape of a level added after a fill. */
  predicate SpawnedLevel(l: DcaLevel, cfg: DcaConfig)
  {
    IsIdle(l) && l.fillTime.None? && l.fillPrice.None? && l.quantity == cfg.orderSize && l.level < cfg.maxOrders
  }

  /** A pass in which no level from `i` on fires changes nothing. */
  lemma {:induction false} QuietPass(ls: seq<DcaLevel>, ids: set<string>, now: real, cfg: DcaConfig, rule: TriggerRule, i: nat)
    requires i <= |ls|
    requires forall k :: i <= k < |ls| ==> !Fires(ls[k], ids)
    ensures CheckFrom(ls, ids, now, cfg, rule, i) == ls
    decreases |ls| - i
  {
    if i < |ls| {
      QuietPass(ls, ids, now, cfg, rule, i + 1);
    }
  }

  /** Past the levels the loop started with, it visits only spawned levels,
      none of which fires. */
  lemma MidwayEnd(ls: seq<DcaLevel>, ids: set<string>, now: real, cfg: DcaConfig, rule: TriggerRule)
    ensures var m := Midway(ls, ids, now, cfg, rule, |ls|);
      CheckFrom(m, ids, now, cfg, rule, |ls|) == m
  {
    var m := Midway(ls, ids, now, cfg, rule, |ls|);
    var sp := Spawned(ls, ids, cfg, rule, |ls|);
    SpawnedIdle(ls, ids, cfg, rule, |ls|);
    assert forall k :: |ls| <= k < |m| ==> m[k] == sp[k - |ls|];
    QuietPass(m, ids, now, cfg, rule, |ls|);
  }

  lemma {:induction false} MidwayRest(ls: seq<DcaLevel>, ids: set<string>, now: real, cfg: DcaConfig, rule: TriggerRule, i: nat)
    requires i <= |ls|
    ensures CheckFrom(Midway(ls, ids, now, cfg, rule, i), ids, now, cfg, rule, i) == Midway(ls, ids, now, cfg, rule, |ls|)
    decreases |ls| - i
  {
    if i < |ls| {
      var m := Midway(ls, ids, now, cfg, rule, i);
      assert i < |m|;
      assert CheckFrom(m, ids, now, cfg, rule, i)
          == CheckFrom(Visit(m, ids, now, cfg, rule, i), ids, now, cfg, rule, i + 1);
      MidwayStep(ls, ids, now, cfg, rule, i);
      MidwayRest(ls, ids, now, cfg, rule, i + 1);
    } else {
      MidwayEnd(ls, ids, now, cfg, rule);
    }
  }

  /** What `_check_filled_orders`' loop computes, although the ladder grows
      under it: every level it started with reconciled, followed by the next
      level of each fill that spawns one, in ladder order. */
  lemma CheckExact(ls: seq<DcaLevel>, ids: set<string>, now: real, cfg: DcaConfig, rule: TriggerRule)
    ensures CheckFrom(ls, ids, now, cfg, rule, 0)
         == ReconciledUpTo(ls, ids, now, |ls|) + Spawned(ls, ids, cfg, rule, |ls|)
  {
    assert Midway(ls, ids, now, cfg, rule, 0) == ls;
    MidwayRest(ls, ids, now, cfg, rule, 0);
  }

  lemma {:induction false} CountActiveConcat(a: seq<DcaLevel>, b: seq<DcaLevel>)
    ensures CountActive(a + b) == CountActive(a) + CountActive(b)
    decreases |b|
  {
    if |b| == 0 {
      assert a + b == a;
    } else {
      var b' := b[..|b| - 1];
      assert (a + b)[..|a + b| - 1] == a + b';
      CountActiveConcat(a, b');
    }
  }

  lemma EvolvesTransitive(a: seq<DcaLevel>, b: seq<DcaLevel>, c: seq<DcaLevel>)
    requires Evolves(a, b) && Evolves(b, c)
    ensures Evolves(a, c)
  {
  }

  /** The shape of a pass: the levels it started with reconciled, then
      next levels with the shape `SpawnedLevel` gives them. */
  lemma CheckShape(ls: seq<DcaLevel>, ids: set<string>, now: real, cfg: DcaConfig, rule: TriggerRule)
    requires WellFormed(ls)
    ensures var r := CheckFrom(ls, ids, now, cfg, rule, 0);
      && |ls| <= |r|
      && (forall k :: 0 <= k < |ls| ==> r[k] == Reconciled(ls[k], ids, now))
      && (forall k :: |ls| <= k < |r| ==> SpawnedLevel(r[k], cfg) && r[k].level >= 1)
  {
    var sp := Spawned(ls, ids, cfg, rule, |ls|);
    CheckExact(ls, ids, now, cfg, rule);
    SpawnedIdle(ls, ids, cfg, rule, |ls|);
    SpawnedNumbered(ls, ids, cfg, rule, |ls|);
    var r := ReconciledUpTo(ls, ids, now, |ls|) + sp;
    assert forall k :: |ls| <= k < |r| ==> r[k] == sp[k - |ls|];
  }

  /** A pass never adds an active level. */
  lemma CheckCount(ls: seq<DcaLevel>, ids: set<string>, now: real, cfg: DcaConfig, rule: TriggerRule)
    ensures CountActive(CheckFrom(ls, ids, now, cfg, rule, 0)) <= CountActive(ls)
  {
    var a := ReconciledUpTo(ls, ids, now, |ls|);
    var sp := Spawned(ls, ids, cfg, rule, |ls|);
    CheckExact(ls, ids, now, cfg, rule);
    SpawnedIdle(ls, ids, cfg, rule, |ls|);
    CountActiveFewer(ls, a);
    CountActiveNone(sp);
    CountActiveConcat(a, sp);
  }

  /** A reconciliation pass over a well-formed ladder leaves a well-formed
      ladder that evolves from it, in which no level fires against the same
      open orders, and with no more active levels than before. */
  lemma CheckFacts(ls: seq<DcaLevel>, ids: set<string>, now: real, cfg: DcaConfig, rule: TriggerRule)
    requires WellFormed(ls)
    ensures var r := CheckFrom(ls, ids, now, cfg, rule, 0);
      && WellFormed(r) && Evolves(ls, r)
      && (forall k :: 0 <= k < |r| ==> !Fires(r[k], ids))
      && CountActive(r) <= CountActive(ls)
  {
    CheckShape(ls, ids, now, cfg, rule);
    CheckCount(ls, ids, now, cfg, rule);
  }

  // ---------------------------------------------------------------------------
  // The update cycle and a change of trend

  /** The trigger loop keeps a well-formed ladder well formed, and the ladder
      it leaves evolves from the one it started with. */
  lemma TriggerKeeps(s0: Sweep, trend: string, price: real)
    requires WellFormed(s0.levels)
    ensures WellFormed(TriggerUpTo(s0, trend, price, |s0.levels|).levels)
    ensures Evolves(s0.levels, TriggerUpTo(s0, trend, price, |s0.levels|).levels)
  {
    TriggerFacts(s0, trend, price);
  }

  /** `update_dca`: with a price, the trigger loop and then one
      reconciliation pass; it answers true in every case. */
  function UpdateSpec(d: DcaState, port: PortState, now: real, cfg: DcaConfig): Outcome
  {
    if !d.active || !cfg.enabled then Outcome(d, port, true)
    else
      var p := port.Price();
      var port1 := port.AfterPrice();
      if Quote(p).None? then Outcome(d, port1, true)
      else
        var s := TriggerUpTo(Sweep(d.levels, d.trades, d.lastDcaPrice, port1), d.trend, p.value, |d.levels|);
        var c := CheckSpec(s.levels, s.port, now, cfg, NextRule(cfg, d.trend));
        Outcome(d.(currentPrice := p.value, levels := c.0, trades := s.trades,
                   lastDcaPrice := s.lastDcaPrice), c.1, true)
  }

  /** An update never stops or restarts the engine and never changes its
      trend; it only appends to the trade log, on the trend's side; after it,
      no level fires against the open orders it read; and it keeps the
      invariant, so the number of trades never passes the throttle's limit. */
  lemma UpdateFacts(d: DcaState, port: PortState, now: real, cfg: DcaConfig)
    ensures var o := UpdateSpec(d, port, now, cfg);
      && o.ok
      && o.d.active == d.active && o.d.trend == d.trend && o.d.lastTriggerPrice == d.lastTriggerPrice
      && (!d.active || !cfg.enabled ==> o == Outcome(d, port, true))
      && (d.active && cfg.enabled && Quote(port.Price()).None? ==> o == Outcome(d, port.AfterPrice(), true))
      && (d.active && cfg.enabled && Quote(port.Price()).Some? ==> o.d.currentPrice == port.Price().value)
      && |d.trades| <= |o.d.trades| && o.d.trades[..|d.trades|] == d.trades
      && (forall j :: |d.trades| <= j < |o.d.trades| ==> o.d.trades[j].side == EntrySide(d.trend))
      && (WellFormed(d.levels) ==> Evolves(d.levels, o.d.levels))
      && (WellFormed(d.levels) && d.active && cfg.enabled && Quote(port.Price()).Some?
          && Snapshot(port.OpenOrders()).Some? ==>
            forall k :: 0 <= k < |o.d.levels| ==> !Fires(o.d.levels[k], Snapshot(port.OpenOrders()).value))
      && (Invariant(d) ==> Invariant(o.d))
  {
    if d.active && cfg.enabled && Quote(port.Price()).Some? {
      var s0 := Sweep(d.levels, d.trades, d.lastDcaPrice, port.AfterPrice());
      var p := port.Price().value;
      var s := TriggerUpTo(s0, d.trend, p, |d.levels|);
      TriggerFacts(s0, d.trend, p);
      assert s.port.OpenOrders() == port.OpenOrders();
      if WellFormed(d.levels) {
        TriggerKeeps(s0, d.trend, p);
        var ids := Snapshot(port.OpenOrders());
        if ids.Some? {
          var rule := NextRule(cfg, d.trend);
          CheckFacts(s.levels, ids.value, now, cfg, rule);
          EvolvesTransitive(d.levels, s.levels, CheckFrom(s.levels, ids.value, now, cfg, rule, 0));
        }
      }
    }
  }

  /** One cancellation is sent per active level. */
  lemma {:induction false} CancelRequestsCount(ls: seq<DcaLevel>)
    ensures |CancelRequests(ls)| == CountActive(ls)
  {
    if |ls| > 0 {
      CancelRequestsCount(ls[..|ls| - 1]);
    }
  }

  /** `update_trend_direction`'s cancellation loop after visiting the first
      `n` levels: every active level is cancelled and loses its id, whatever
      the exchange answers. */
  function ForgetUpTo(ls: seq<DcaLevel>, n: nat, port: PortState): (r: (seq<DcaLevel>, PortState))
    requires n <= |ls|
    ensures |r.0| == |ls|
  {
    if n == 0 then (ls, port)
    else
      var (cur, p) := ForgetUpTo(ls, n - 1, port);
      var l := cur[n - 1];
      if IsActive(l) then (cur[n - 1 := l.(orderId := None)], p.Issue(Cancel(l.orderId.value)))
      else (cur, p)
  }

  lemma {:induction false} ForgetUpToRest(ls: seq<DcaLevel>, n: nat, port: PortState)
    requires n <= |ls|
    ensures var r := ForgetUpTo(ls, n, port).0;
      forall k :: n <= k < |ls| ==> r[k] == ls[k]
  {
    if n > 0 {
      ForgetUpToRest(ls, n - 1, port);
    }
  }

  /** The loop sends one Cancel per active level, in order. */
  lemma {:induction false} ForgetUpToPort(ls: seq<DcaLevel>, n: nat, port: PortState)
    requires n <= |ls|
    ensures ForgetUpTo(ls, n, port).1 == IssueAll(port, CancelRequests(ls[..n]))
  {
    if n > 0 {
      var m := n - 1;
      ForgetUpToPort(ls, m, port);
      ForgetUpToRest(ls, m, port);
      assert ls[..n][..m] == ls[..m];
      if IsActive(ls[m]) {
        IssueAllSnoc(port, CancelRequests(ls[..m]), Cancel(ls[m].orderId.value));
      } else {
        assert CancelRequests(ls[..m]) + [] == CancelRequests(ls[..m]);
      }
    }
  }

  /** `update_trend_direction`: on a new trend, a cancellation for every
      active level whatever the exchange answers, then a fresh ladder for the
      new trend. */
  function TrendSpec(d: DcaState, port: PortState, cfg: DcaConfig, trend: string): (DcaState, PortState)
  {
    if d.trend == trend then (d, port)
    else
      var o := InitSpec(d.(trend := trend, levels := []), IssueAll(port, CancelRequests(d.levels)), cfg);
      (o.d, o.port)
  }

  /** The same trend changes nothing. A new trend sends one cancellation per
      active level and forgets those orders even when a cancellation is
      refused; the ladder is then the fresh ladder for the new trend when a
      price is available and DCA is enabled, and empty otherwise. */
  lemma TrendFacts(d: DcaState, port: PortState, cfg: DcaConfig, trend: string)
    ensures var r := TrendSpec(d, port, cfg, trend);
      && (d.trend == trend ==> r == (d, port))
      && (d.trend != trend ==>
            && r.0.trend == trend && r.0.active == d.active && r.0.trades == d.trades
            && r.1.sent == port.sent + CancelRequests(d.levels)
            && |CancelRequests(d.levels)| == CountActive(d.levels)
            && CountActive(r.0.levels) == 0
            && (cfg.enabled && Quote(port.Price()).Some? ==> r.0.levels == Ladder(cfg, trend, port.Price().value))
            && (!cfg.enabled || Quote(port.Price()).None? ==> r.0.levels == []))
      && (Invariant(d) ==> Invariant(r.0))
  {
    if d.trend != trend {
      var port1 := IssueAll(port, CancelRequests(d.levels));
      IssueAllLogs(port, CancelRequests(d.levels));
      CancelRequestsCount(d.levels);
      var d1 := d.(trend := trend, levels := []);
      InitFacts(d1, port1, cfg);
      assert port1.Price() == port.Price();
      assert Invariant(d) ==> Invariant(d1);
    }
  }

  // ---------------------------------------------------------------------------
  // Status

  /** The answer of `get_dca_status`. */
  datatype DcaStatus = DcaStatus(
    active: bool,
    enabled: bool,
    trend: string,
    totalLevels: nat,
    activeOrders: nat,
    filledOrders: nat,
    currentPrice: real,
    triggerPercent: real)

  /** The status of the engine: active and filled levels never outnumber the
      levels, and the rest are idle. */
  function StatusOf(d: DcaState, cfg: DcaConfig): (s: DcaStatus)
    ensures s.totalLevels == |d.levels|
    ensures s.activeOrders + s.filledOrders <= s.totalLevels
    ensures s.totalLevels - s.activeOrders - s.filledOrders == CountIdle(d.levels)
  {
    CountsPartition(d.levels);
    DcaStatus(d.active, cfg.enabled, d.trend, |d.levels|, CountActive(d.levels), CountFilled(d.levels),
              d.currentPrice, cfg.triggerPercent)
  }

  /** The counting loop of `sum(1 for level ... if level.order_id and not level.filled)`. */
  method ActiveOrders(ls: seq<DcaLevel>) returns (n: nat)
    ensures n == CountActive(ls)
  {
    n := 0;
    var i := 0;
    while i < |ls|
      invariant 0 <= i <= |ls|
      invariant n == CountActive(ls[..i])
    {
      assert ls[..i + 1][..i] == ls[..i];
      if IsActive(ls[i]) {
        n := n + 1;
      }
      i := i + 1;
    }
    assert ls[..|ls|] == ls;
  }

  /** The counting loop of `sum(1 for level ... if level.filled)`. */
  method FilledOrders(ls: seq<DcaLevel>) returns (n: nat)
    ensures n == CountFilled(ls)
  {
    n := 0;
    var i := 0;
    while i < |ls|
      invariant 0 <= i <= |ls|
      invariant n == CountFilled(ls[..i])
    {
      assert ls[..i + 1][..i] == ls[..i];
      if ls[i].filled {
        n := n + 1;
      }
      i := i + 1;
    }
    assert ls[..|ls|] == ls;
  }

  // ---------------------------------------------------------------------------
  // The engine

  /** The DCA engine: its ladder, flags and trade log are updated in place by
      each operation, exactly as the corresponding function of this module
      says. */
  class DcaEngine {
    const client: Exchange
    const cfg: DcaConfig
    const symbol: string

    var levels: seq<DcaLevel>
    var active: bool
    var currentPrice: real
    var lastTriggerPrice: real
    var trend: string
    var trades: seq<DcaTrade>
    var lastDcaPrice: real

    ghost predicate Valid()
      reads this
    {
      Invariant(State())
    }

    function State(): DcaState
      reads this
    {
      DcaState(levels, active, currentPrice, lastTriggerPrice, trend, trades, lastDcaPrice)
    }

    function Trip(): Sweep
      reads this, client
    {
      Sweep(levels, trades, lastDcaPrice, client.st)
    }

    constructor (client: Exchange, cfg: DcaConfig, symbol: string)
      ensures Valid()
      ensures this.client == client && this.cfg == cfg && this.symbol == symbol
      ensures State() == DcaState([], false, 0.0, 0.0, "none", [], 0.0)
    {
      this.client := client;
      this.cfg := cfg;
      this.symbol := symbol;
      levels := [];
      active := false;
      currentPrice := 0.0;
      lastTriggerPrice := 0.0;
      trend := "none";
      trades := [];
      lastDcaPrice := 0.0;
    }

    method InitializeDca() returns (ok: bool)
      requires Valid()
      modifies this, client
      ensures Valid()
      ensures Outcome(State(), client.st, ok) == InitSpec(old(State()), old(client.st), cfg)
    {
      InitFacts(State(), client.st, cfg);
      if !cfg.enabled {
        return true;
      }
      var price := client.GetCurrentPrice();
      if Quote(price).None? {
        return false;
      }
      currentPrice := price.value;
      lastTriggerPrice := price.value;
      BuildLadder(price.value);
      return true;
    }

    /** The building loop of `initialize_dca`, around `price`. */
    method BuildLadder(price: real)
      modifies this
      ensures levels == Ladder(cfg, trend, price)
      ensures State() == old(State()).(levels := levels)
    {
      levels := [];
      for i := 0 to RangeLength(cfg.maxOrders)
        invariant levels == Ladder(cfg, trend, price)[..i]
        invariant State() == old(State()).(levels := levels)
      {
        levels := levels + [LadderLevel(cfg, trend, price, i)];
      }
      assert levels == Ladder(cfg, trend, price);
    }

    method StartDca(trend: string) returns (ok: bool)
      requires Valid()
      modifies this, client
      ensures Valid()
      ensures Outcome(State(), client.st, ok) == StartSpec(old(State()), old(client.st), cfg, trend)
    {
      StartFacts(State(), client.st, cfg, trend);
      if !cfg.enabled {
        return true;
      }
      this.trend := trend;
      if |levels| == 0 {
        var init := InitializeDca();
        if !init {
          return false;
        }
      }
      active := true;
      return true;
    }

    method StopDca() returns (ok: bool)
      requires Valid()
      modifies this, client
      ensures Valid()
      ensures Outcome(State(), client.st, ok) == StopSpec(old(State()), old(client.st), cfg)
    {
      StopFacts(State(), client.st, cfg);
      if !cfg.enabled {
        return true;
      }
      CancelLevels();
      active := false;
      return true;
    }

    /** The cancellation loop of `stop_dca`: an active level loses its id
        when the exchange confirms its cancellation. */
    method CancelLevels()
      modifies this, client
      ensures (levels, client.st) == CancelUpTo(old(levels), |old(levels)|, old(client.st))
      ensures State() == old(State()).(levels := levels)
    {
      var i := 0;
      while i < |levels|
        invariant 0 <= i <= |levels| == |old(levels)|
        invariant (levels, client.st) == CancelUpTo(old(levels), i, old(client.st))
        invariant State() == old(State()).(levels := levels)
      {
        var l := levels[i];
        if IsActive(l) {
          var cancelled := client.CancelOrder(l.orderId.value);
          if cancelled {
            levels := levels[i := l.(orderId := None)];
          }
        }
        i := i + 1;
      }
    }

    method UpdateDca(now: real) returns (ok: bool)
      requires Valid()
      modifies this, client
      ensures Valid()
      ensures Outcome(State(), client.st, ok) == UpdateSpec(old(State()), old(client.st), now, cfg)
    {
      UpdateFacts(State(), client.st, now, cfg);
      if !active || !cfg.enabled {
        return true;
      }
      var price := client.GetCurrentPrice();
      if Quote(price).None? {
        return true;
      }
      currentPrice := price.value;
      TriggerLevels(price.value);
      CheckFilledOrders(now);
      return true;
    }

    /** The trigger loop of `update_dca`: a DCA order for every idle level
        whose trigger the price has crossed. */
    method TriggerLevels(price: real)
      modifies this, client
      ensures Trip() == TriggerUpTo(old(Trip()), trend, price, |old(levels)|)
      ensures active == old(active) && currentPrice == old(currentPrice)
      ensures lastTriggerPrice == old(lastTriggerPrice) && trend == old(trend)
    {
      var i := 0;
      while i < |levels|
        invariant 0 <= i <= |levels| == |old(levels)|
        invariant Trip() == TriggerUpTo(old(Trip()), trend, price, i)
        invariant active == old(active) && currentPrice == old(currentPrice)
        invariant lastTriggerPrice == old(lastTriggerPrice) && trend == old(trend)
      {
        var l := levels[i];
        if IsIdle(l) && ShouldTrigger(trend, l.triggerPrice, price) {
          var id := PlaceDcaOrder(l.quantity);
          if id.Some? {
            levels := levels[i := l.(orderId := id)];
          }
        }
        i := i + 1;
      }
    }

    /** `_place_dca_order` for an order of `qty`. */
    method PlaceDcaOrder(qty: real) returns (id: Option<OrderId>)
      modifies this, client
      ensures Placement(Trip(), id) == PlaceStep(old(Trip()), qty, trend)
      ensures active == old(active) && currentPrice == old(currentPrice)
      ensures lastTriggerPrice == old(lastTriggerPrice) && trend == old(trend)
    {
      var count := ActiveOrders(levels);
      if count >= ActiveCap {
        return None;
      }
      var price := client.GetCurrentPrice();
      if TooVolatile(price, lastDcaPrice) {
        return None;
      }
      lastDcaPrice := PriceOrZero(price);
      if !ThrottleOpen(|trades|) {
        return None;
      }
      var side := EntrySide(trend);
      id := client.PlaceOrder(side, Market, qty, None);
      if id.Some? {
        var after := client.GetCurrentPrice();
        trades := trades + [DcaTrade(side, after, qty, id.value)];
      }
    }

    /** `_check_filled_orders`: the loop also visits the levels it appends. */
    method CheckFilledOrders(now: real)
      modifies this, client
      ensures (levels, client.st) == CheckSpec(old(levels), old(client.st), now, cfg, NextRule(cfg, trend))
      ensures active == old(active) && currentPrice == old(currentPrice)
      ensures lastTriggerPrice == old(lastTriggerPrice) && trend == old(trend)
      ensures trades == old(trades) && lastDcaPrice == old(lastDcaPrice)
    {
      var orders := client.GetOpenOrders();
      var ids := Snapshot(orders);
      if ids.None? {
        return;
      }
      var rule := NextRule(cfg, trend);
      ghost var start := levels;
      var i := 0;
      while i < |levels|
        invariant i <= |levels|
        invariant CheckFrom(levels, ids.value, now, cfg, rule, i) == CheckFrom(start, ids.value, now, cfg, rule, 0)
        invariant client.st == old(client.st).AfterOpenOrders()
        invariant active == old(active) && currentPrice == old(currentPrice)
        invariant lastTriggerPrice == old(lastTriggerPrice) && trend == old(trend)
        invariant trades == old(trades) && lastDcaPrice == old(lastDcaPrice)
        decreases ActiveFrom(levels, i) + (|levels| - i)
      {
        VisitFacts(levels, ids.value, now, cfg, rule, i);
        ghost var cur := levels;
        if Fires(levels[i], ids.value) {
          var f := Reconciled(levels[i], ids.value, now);
          levels := levels[i := f];
          if f.level < cfg.maxOrders - 1 {
            CreateNextDcaLevel(f);
          }
        }
        assert levels == Visit(cur, ids.value, now, cfg, rule, i);
        i := i + 1;
      }
    }

    /** `_create_next_dca_level` after the fill of `f`. */
    method CreateNextDcaLevel(f: DcaLevel)
      modifies this
      ensures levels == CreateNext(old(levels), f, cfg, NextRule(cfg, trend))
      ensures active == old(active) && currentPrice == old(currentPrice)
      ensures lastTriggerPrice == old(lastTriggerPrice) && trend == old(trend)
      ensures trades == old(trades) && lastDcaPrice == old(lastDcaPrice)
    {
      var next := f.level + 1;
      if next >= cfg.maxOrders {
        return;
      }
      var t;
      if Down(trend) {
        t := f.triggerPrice * (1.0 - cfg.triggerPercent / 100.0);
      } else {
        t := f.triggerPrice * (1.0 + cfg.triggerPercent / 100.0);
      }
      assert t == NextTrigger(cfg, trend, f.triggerPrice);
      assert NextRule(cfg, trend)(f.triggerPrice) == Round(t, 2);
      levels := levels + [DcaLevel(next, Round(t, 2), cfg.orderSize, None, false, None, None)];
    }

    method UpdateTrendDirection(trend: string)
      requires Valid()
      modifies this, client
      ensures Valid()
      ensures (State(), client.st) == TrendSpec(old(State()), old(client.st), cfg, trend)
    {
      TrendFacts(State(), client.st, cfg, trend);
      if this.trend == trend {
        return;
      }
      this.trend := trend;
      ghost var ls0 := levels;
      ghost var port0 := client.st;
      ForgetActive();
      ForgetUpToPort(ls0, |ls0|, port0);
      assert ls0[..|ls0|] == ls0;
      levels := [];
      var _ := InitializeDca();
    }

    /** The cancellation loop of `update_trend_direction`. */
    method ForgetActive()
      modifies this, client
      ensures (levels, client.st) == ForgetUpTo(old(levels), |old(levels)|, old(client.st))
      ensures State() == old(State()).(levels := levels)
    {
      var i := 0;
      while i < |levels|
        invariant 0 <= i <= |levels| == |old(levels)|
        invariant (levels, client.st) == ForgetUpTo(old(levels), i, old(client.st))
        invariant State() == old(State()).(levels := levels)
      {
        var l := levels[i];
        if IsActive(l) {
          var _ := client.CancelOrder(l.orderId.value);
          levels := levels[i := l.(orderId := None)];
        }
        i := i + 1;
      }
    }

    method GetDcaStatus() returns (s: DcaStatus)
      ensures s == StatusOf(State(), cfg)
    {
      var a := ActiveOrders(levels);
      var n := FilledOrders(levels);
      s := DcaStatus(active, cfg.enabled, trend, |levels|, a, n, currentPrice, cfg.triggerPercent);
    }

    /** `get_dca_pnl`: the unrealised PnL of the positions on the traded
        symbol; none, or no positions at all, is 0.0. */
    method GetDcaPnl() returns (pnl: real)
      modifies client
      ensures client.st == old(client.st).AfterPositions()
      ensures pnl == UnrealisedPnl(old(client.st).Positions().GetOr([]), symbol)
    {
      var positions := client.GetPositions();
      if positions.None? || |positions.value| == 0 {
        return 0.0;
      }
      pnl := SumOn(positions.value, symbol, Unrealised);
    }

    /** `is_active`: running, and DCA enabled. */
    predicate IsRunning()
      reads this
    {
      active && cfg.enabled
    }
  }
}
