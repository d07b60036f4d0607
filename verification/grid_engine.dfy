/** The grid trading engine.

    A ladder of limit orders spread between a lower and an upper price. When
    one of the ladder's orders disappears from the exchange's open-order list
    it counts as filled, and the engine may place an order on the opposite
    side a little further on, which joins the ladder as a new level. */
module Grid {
  import opened Wrappers
  import opened Numeric
  import opened Port
  import opened Config

  /** Opposite orders are not placed while this many levels are active. */
  const ActiveCap: nat := 15
  /** An opposite order is placed only when the draw is at most this. */
  const PlaceOdds: real := 0.5
  /** The profit target of an opposite order is drawn from [MinProfit, MaxProfit). */
  const MinProfit: real := 0.003
  const MaxProfit: real := 0.008

  datatype GridLevel = GridLevel(
    level: int,
    price: real,
    side: Side,
    quantity: real,
    orderId: Option<OrderId>,
    filled: bool,
    fillPrice: Option<real>,
    fillTime: Option<real>)

  /** Every level is in exactly one of three states. */
  predicate IsIdle(l: GridLevel) { l.orderId.None? && !l.filled }
  predicate IsActive(l: GridLevel) { l.orderId.Some? && !l.filled }

  function CountActive(ls: seq<GridLevel>): (n: nat)
    ensures n <= |ls|
  {
    if |ls| == 0 then 0
    else CountActive(ls[..|ls| - 1]) + (if IsActive(ls[|ls| - 1]) then 1 else 0)
  }

  function CountFilled(ls: seq<GridLevel>): (n: nat)
    ensures n <= |ls|
  {
    if |ls| == 0 then 0
    else CountFilled(ls[..|ls| - 1]) + (if ls[|ls| - 1].filled then 1 else 0)
  }

  function CountIdle(ls: seq<GridLevel>): (n: nat)
    ensures n <= |ls|
  {
    if |ls| == 0 then 0
    else CountIdle(ls[..|ls| - 1]) + (if IsIdle(ls[|ls| - 1]) then 1 else 0)
  }

  /** Idle, active and filled levels partition the ladder. */
  lemma {:induction false} CountsPartition(ls: seq<GridLevel>)
    ensures CountIdle(ls) + CountActive(ls) + CountFilled(ls) == |ls|
  {
    if |ls| > 0 {
      CountsPartition(ls[..|ls| - 1]);
    }
  }

  lemma {:induction false} CountActiveUpdate(ls: seq<GridLevel>, i: nat, x: GridLevel)
    requires i < |ls|
    ensures CountActive(ls[i := x]) + (if IsActive(ls[i]) then 1 else 0)
         == CountActive(ls) + (if IsActive(x) then 1 else 0)
  {
    var n := |ls| - 1;
    if i < n {
      assert ls[i := x][..n] == ls[..n][i := x];
      CountActiveUpdate(ls[..n], i, x);
    } else {
      assert ls[i := x][..n] == ls[..n];
    }
  }

  lemma CountActiveAppend(ls: seq<GridLevel>, x: GridLevel)
    ensures CountActive(ls + [x]) == CountActive(ls) + (if IsActive(x) then 1 else 0)
  {
    assert (ls + [x])[..|ls|] == ls;
  }

  /** What every ladder the engine holds satisfies: a level's `level` is its
      position, a filled level has an order id and a fill time, and no fill
      price is ever recorded. */
  predicate WellFormed(ls: seq<GridLevel>)
  {
    forall k :: 0 <= k < |ls| ==>
      && ls[k].level == k
      && (ls[k].filled ==> ls[k].orderId.Some? && ls[k].fillTime.Some?)
      && ls[k].fillPrice.None?
  }

  /** `b` is a later state of ladder `a`: levels are only appended, a level
      keeps its position, price, side and quantity, and a filled level is never
      changed again (in particular `filled` is never cleared). */
  predicate Evolves(a: seq<GridLevel>, b: seq<GridLevel>)
  {
    && |a| <= |b|
    && forall k :: 0 <= k < |a| ==>
         && b[k].level == a[k].level && b[k].price == a[k].price
         && b[k].side == a[k].side && b[k].quantity == a[k].quantity
         && (a[k].filled ==> b[k] == a[k])
  }

  lemma EvolvesTransitive(a: seq<GridLevel>, b: seq<GridLevel>, c: seq<GridLevel>)
    requires Evolves(a, b) && Evolves(b, c)
    ensures Evolves(a, c)
  {
  }

  /** A stream of draws of `random.random()`, each in [0, 1). */
  ghost predicate RandomStream(rand: nat -> real)
  {
    forall k :: 0.0 <= rand(k) < 1.0
  }

  /** `random.uniform(0.003, 0.008)` from one draw `u` of `random.random()`:
      the profit fraction of an opposite order. */
  function ProfitDraw(u: real): real
  {
    0.003 + (0.008 - 0.003) * u
  }

  /** The profit fraction of an opposite order lies in [MinProfit, MaxProfit). */
  lemma ProfitRange(u: real)
    requires 0.0 <= u < 1.0
    ensures MinProfit <= ProfitDraw(u) < MaxProfit
  {
  }

  // ---------------------------------------------------------------------------
  // The ladder

  /** The distance between neighbouring levels before the spacing factor. */
  function BaseSpacing(cfg: GridConfig): real
    requires cfg.levels != 1
  {
    (cfg.upperPrice - cfg.lowerPrice) / (cfg.levels - 1) as real
  }

  /** The unrounded price of level `i`: the base spacing is stretched by a
      factor growing from 1.0 to almost 1.3 along the ladder. */
  function LevelPrice(cfg: GridConfig, i: nat): real
    requires i < cfg.levels && cfg.levels != 1
  {
    var factor := 1.0 + (i as real / cfg.levels as real) * 0.3;
    cfg.lowerPrice + i as real * BaseSpacing(cfg) * factor
  }

  function NewLevel(cfg: GridConfig, current: real, i: nat): GridLevel
    requires i < cfg.levels && cfg.levels != 1
  {
    var raw := LevelPrice(cfg, i);
    GridLevel(i, Round(raw, 2), if raw < current then Buy else Sell,
              Round(cfg.orderSize, 4), None, false, None, None)
  }

  /** The ladder `initialize_grid` builds around the current price. */
  function Ladder(cfg: GridConfig, current: real): (ls: seq<GridLevel>)
    requires cfg.levels != 1
    ensures |ls| == RangeLength(cfg.levels)
    ensures forall i :: 0 <= i < |ls| ==> ls[i] == NewLevel(cfg, current, i)
  {
    seq(RangeLength(cfg.levels), i requires 0 <= i < RangeLength(cfg.levels) => NewLevel(cfg, current, i))
  }

  /** A fresh ladder is well formed and entirely idle; every level has the
      rounded order size, and it is a buy exactly when its unrounded price is
      below the current price. */
  lemma LadderLevels(cfg: GridConfig, current: real)
    requires cfg.levels != 1
    ensures var ls := Ladder(cfg, current);
      && WellFormed(ls)
      && (forall i :: 0 <= i < |ls| ==> IsIdle(ls[i]) && ls[i].quantity == Round(cfg.orderSize, 4))
      && (forall i :: 0 <= i < |ls| ==> (ls[i].side == Buy <==> LevelPrice(cfg, i) < current))
      && CountActive(ls) == 0 && CountFilled(ls) == 0
  {
    var ls := Ladder(cfg, current);
    CountsIdleLadder(ls);
  }

  lemma {:induction false} CountsIdleLadder(ls: seq<GridLevel>)
    requires forall i :: 0 <= i < |ls| ==> IsIdle(ls[i])
    ensures CountActive(ls) == 0 && CountFilled(ls) == 0
  {
    if |ls| > 0 {
      CountsIdleLadder(ls[..|ls| - 1]);
    }
  }

  lemma LevelPriceStep(cfg: GridConfig, i: nat, j: nat)
    requires i <= j < cfg.levels && cfg.levels != 1
    requires cfg.lowerPrice <= cfg.upperPrice
    ensures LevelPrice(cfg, i) <= LevelPrice(cfg, j)
  {
    var n := cfg.levels as real;
    var b := BaseSpacing(cfg);
    assert b >= 0.0;
    var fi := 1.0 + (i as real / n) * 0.3;
    var fj := 1.0 + (j as real / n) * 0.3;
    assert i as real / n <= j as real / n by { DivPositiveMonotone(i as real, j as real, n); }
    assert 1.0 <= fi <= fj;
    assert i as real * fi <= j as real * fj by {
      MulPositiveMonotone(i as real, j as real, fi);
      assert j as real * fi <= j as real * fj by {
        assert j as real * fj - j as real * fi == j as real * (fj - fi);
      }
    }
    assert i as real * b * fi == b * (i as real * fi);
    assert j as real * b * fj == b * (j as real * fj);
    assert b * (i as real * fi) <= b * (j as real * fj) by {
      assert b * (j as real * fj) - b * (i as real * fi) == b * (j as real * fj - i as real * fi);
    }
  }

  /** When the range is not inverted, ladder prices never decrease, and the
      buys form a prefix of the ladder: every level below a buy is a buy. */
  lemma LadderOrdered(cfg: GridConfig, current: real)
    requires cfg.levels != 1 && cfg.lowerPrice <= cfg.upperPrice
    ensures var ls := Ladder(cfg, current);
      forall i, j :: 0 <= i <= j < |ls| ==>
        ls[i].price <= ls[j].price && (ls[j].side == Buy ==> ls[i].side == Buy)
  {
    var ls := Ladder(cfg, current);
    forall i, j | 0 <= i <= j < |ls|
      ensures ls[i].price <= ls[j].price && (ls[j].side == Buy ==> ls[i].side == Buy)
    {
      LevelPriceStep(cfg, i, j);
      RoundMonotone(LevelPrice(cfg, i), LevelPrice(cfg, j), 2);
    }
  }

  /** The ladder starts at the lower price, but with the spacing factor its
      top level lies beyond the upper price whenever the range is not empty. */
  lemma LadderOvershoots(cfg: GridConfig)
    requires cfg.levels >= 2
    ensures LevelPrice(cfg, 0) == cfg.lowerPrice
    ensures cfg.lowerPrice < cfg.upperPrice ==> LevelPrice(cfg, cfg.levels - 1) > cfg.upperPrice
  {
    var n := cfg.levels as real;
    var top := (cfg.levels - 1) as real;
    var d := cfg.upperPrice - cfg.lowerPrice;
    if d > 0.0 {
      assert top * (d / top) == d;
      var f := 1.0 + (top / n) * 0.3;
      assert top / n > 0.0;
      assert f > 1.0;
      assert top * BaseSpacing(cfg) * f == d * f;
      assert d * f > d;
    }
  }

  // ---------------------------------------------------------------------------
  // Engine state, and each operation as a function of state and exchange

  datatype GridState = GridState(
    levels: seq<GridLevel>,
    active: bool,
    currentPrice: real,
    lastPrice: real,
    draws: nat)

  /** The engine state and exchange after an operation, and its answer. */
  datatype Outcome = Outcome(g: GridState, port: PortState, ok: bool)

  /** `initialize_grid`. */
  function InitSpec(g: GridState, port: PortState, cfg: GridConfig): Outcome
  {
    var p := port.Price();
    var port' := port.AfterPrice();
    if Quote(p).None? then Outcome(g, port', false)
    else if cfg.levels == 1 then
      // The spacing divides by zero; the error is caught after the current
      // price was stored.
      Outcome(g.(currentPrice := p.value), port', false)
    else Outcome(g.(currentPrice := p.value, levels := Ladder(cfg, p.value)), port', true)
  }

  /** Without a price nothing but the exchange's price queue changes; with one,
      success means the ladder was replaced by a fresh ladder of `levels`
      levels around that price. */
  lemma InitFacts(g: GridState, port: PortState, cfg: GridConfig)
    ensures var o := InitSpec(g, port, cfg);
      && o.port == port.AfterPrice()
      && (Quote(port.Price()).None? ==> o.g == g && !o.ok)
      && (o.ok <==> Quote(port.Price()).Some? && cfg.levels != 1)
      && (!o.ok ==> o.g.levels == g.levels && o.g.active == g.active)
      && (o.ok ==> o.g == g.(currentPrice := port.Price().value,
                             levels := Ladder(cfg, port.Price().value))
                   && |o.g.levels| == RangeLength(cfg.levels)
                   && WellFormed(o.g.levels))
  {
    if Quote(port.Price()).Some? && cfg.levels != 1 {
      LadderLevels(cfg, port.Price().value);
    }
  }

  // ---------------------------------------------------------------------------
  // Starting and stopping

  function PlaceRequest(l: GridLevel): Request
  {
    Place(l.side, Limit, l.quantity, PriceField(Some(l.price)))
  }

  /** The placement requests of `start_grid`: one per unfilled level, in
      ladder order. */
  function PlaceRequests(ls: seq<GridLevel>): seq<Request>
  {
    if |ls| == 0 then []
    else PlaceRequests(ls[..|ls| - 1]) + (if ls[|ls| - 1].filled then [] else [PlaceRequest(ls[|ls| - 1])])
  }

  /** The first `n` levels after `start_grid`'s placement loop visited them. */
  function PlaceUpTo(ls: seq<GridLevel>, n: nat, port: PortState): (r: (seq<GridLevel>, PortState))
    requires n <= |ls|
    ensures |r.0| == |ls|
  {
    if n == 0 then (ls, port)
    else
      var (cur, p) := PlaceUpTo(ls, n - 1, port);
      var l := cur[n - 1];
      if l.filled then (cur, p)
      else
        var id := p.PlaceReply();
        (if id.Some? then cur[n - 1 := l.(orderId := id)] else cur, p.Issue(PlaceRequest(l)))
  }

  /** A level after its placement got `reply`: filled levels are skipped, and
      the order id is taken only from a successful reply. */
  function Placed(l: GridLevel, reply: Option<OrderId>): GridLevel
  {
    if !l.filled && reply.Some? then l.(orderId := reply) else l
  }

  lemma PlaceRequestsSnoc(ls: seq<GridLevel>, k: nat)
    requires k < |ls|
    ensures PlaceRequests(ls[..k + 1])
         == PlaceRequests(ls[..k]) + (if ls[k].filled then [] else [PlaceRequest(ls[k])])
  {
    assert ls[..k + 1][..k] == ls[..k];
  }

  /** The number of unfilled levels among the first `k`: the placements sent
      before level `k` is visited. */
  function Unfilled(ls: seq<GridLevel>, k: nat): (n: nat)
    requires k <= |ls|
    ensures n <= k
  {
    if k == 0 then 0 else Unfilled(ls, k - 1) + (if ls[k - 1].filled then 0 else 1)
  }

  /** The number of active levels among the first `k`: the cancellations sent
      before level `k` is visited. */
  function ActiveBefore(ls: seq<GridLevel>, k: nat): (n: nat)
    requires k <= |ls|
    ensures n <= k
  {
    if k == 0 then 0 else ActiveBefore(ls, k - 1) + (if IsActive(ls[k - 1]) then 1 else 0)
  }

  /** The placement loop has not touched the levels it has not reached. */
  lemma {:induction false} PlaceUpToRest(ls: seq<GridLevel>, n: nat, port: PortState)
    requires n <= |ls|
    ensures var r := PlaceUpTo(ls, n, port).0;
      forall k :: n <= k < |ls| ==> r[k] == ls[k]
  {
    if n > 0 {
      PlaceUpToRest(ls, n - 1, port);
    }
  }

  /** The placement loop consumes one placement reply per unfilled level. */
  lemma {:induction false} PlaceUpToReplies(ls: seq<GridLevel>, n: nat, port: PortState)
    requires n <= |ls|
    ensures PlaceUpTo(ls, n, port).1.placeReplies == Skip(port.placeReplies, Unfilled(ls, n))
  {
    if n > 0 {
      var m := n - 1;
      PlaceUpToReplies(ls, m, port);
      PlaceUpToRest(ls, m, port);
      if !ls[m].filled {
        SkipNext(port.placeReplies, Unfilled(ls, m));
      }
    }
  }

  /** The placement loop sends exactly one Limit order per unfilled level,
      in order. */
  lemma {:induction false} PlaceUpToPort(ls: seq<GridLevel>, n: nat, port: PortState)
    requires n <= |ls|
    ensures PlaceUpTo(ls, n, port).1 == IssueAll(port, PlaceRequests(ls[..n]))
  {
    if n > 0 {
      var m := n - 1;
      PlaceUpToPort(ls, m, port);
      PlaceUpToRest(ls, m, port);
      PlaceRequestsSnoc(ls, m);
      if !ls[m].filled {
        IssueAllSnoc(port, PlaceRequests(ls[..m]), PlaceRequest(ls[m]));
      } else {
        assert PlaceRequests(ls[..m]) + [] == PlaceRequests(ls[..m]);
      }
    }
  }

  /** The placement loop gives the level at position k the reply to the j-th
      placement, j being the number of unfilled levels before it, and leaves
      filled levels alone. */
  lemma {:induction false} PlaceUpToLevel(ls: seq<GridLevel>, n: nat, port: PortState, k: nat)
    requires k < n <= |ls|
    ensures PlaceUpTo(ls, n, port).0[k] == Placed(ls[k], Nth(port.placeReplies, Unfilled(ls, k)))
  {
    var m := n - 1;
    if k < m {
      PlaceUpToLevel(ls, m, port, k);
    } else {
      PlaceUpToRest(ls, m, port);
      PlaceUpToReplies(ls, m, port);
      SkipNext(port.placeReplies, Unfilled(ls, m));
    }
  }

  lemma PlaceUpToLevels(ls: seq<GridLevel>, port: PortState)
    ensures var r := PlaceUpTo(ls, |ls|, port).0;
      forall k :: 0 <= k < |ls| ==>
        r[k] == Placed(ls[k], Nth(port.placeReplies, Unfilled(ls, k)))
  {
    forall k | 0 <= k < |ls|
      ensures PlaceUpTo(ls, |ls|, port).0[k] == Placed(ls[k], Nth(port.placeReplies, Unfilled(ls, k)))
    {
      PlaceUpToLevel(ls, |ls|, port, k);
    }
  }

  /** The placement loop does not look at the number of active orders: if the
      exchange accepts every placement, every unfilled level ends up active,
      however many there are. */
  lemma PlaceAllAccepted(ls: seq<GridLevel>, port: PortState)
    requires forall j :: 0 <= j < |port.placeReplies| ==> port.placeReplies[j].Some?
    requires |ls| <= |port.placeReplies|
    ensures var r := PlaceUpTo(ls, |ls|, port).0;
      forall k :: 0 <= k < |ls| ==> (r[k].filled || IsActive(r[k]))
  {
    PlaceUpToLevels(ls, port);
  }

  function CancelRequests(ls: seq<GridLevel>): seq<Request>
  {
    if |ls| == 0 then []
    else CancelRequests(ls[..|ls| - 1])
         + (if IsActive(ls[|ls| - 1]) then [Cancel(ls[|ls| - 1].orderId.value)] else [])
  }

  /** The first `n` levels after `stop_grid`'s cancellation loop visited them. */
  function CancelUpTo(ls: seq<GridLevel>, n: nat, port: PortState): (r: (seq<GridLevel>, PortState))
    requires n <= |ls|
    ensures |r.0| == |ls|
  {
    if n == 0 then (ls, port)
    else
      var (cur, p) := CancelUpTo(ls, n - 1, port);
      var l := cur[n - 1];
      if IsActive(l) then
        var ok := p.CancelReply();
        (if ok then cur[n - 1 := l.(orderId := None)] else cur, p.Issue(Cancel(l.orderId.value)))
      else (cur, p)
  }

  /** A level after its cancellation got `ok`: only an active level is
      cancelled, and its id is dropped only when the exchange confirmed. */
  function Cancelled(l: GridLevel, ok: bool): GridLevel
  {
    if IsActive(l) && ok then l.(orderId := None) else l
  }

  /** The cancellation loop has not touched the levels it has not reached. */
  lemma {:induction false} CancelUpToRest(ls: seq<GridLevel>, n: nat, port: PortState)
    requires n <= |ls|
    ensures var r := CancelUpTo(ls, n, port).0;
      forall k :: n <= k < |ls| ==> r[k] == ls[k]
  {
    if n > 0 {
      CancelUpToRest(ls, n - 1, port);
    }
  }

  /** The cancellation loop consumes one cancellation reply per active level. */
  lemma {:induction false} CancelUpToReplies(ls: seq<GridLevel>, n: nat, port: PortState)
    requires n <= |ls|
    ensures CancelUpTo(ls, n, port).1.cancelReplies == Skip(port.cancelReplies, ActiveBefore(ls, n))
  {
    if n > 0 {
      var m := n - 1;
      CancelUpToReplies(ls, m, port);
      CancelUpToRest(ls, m, port);
      if IsActive(ls[m]) {
        SkipNextFlag(port.cancelReplies, ActiveBefore(ls, m));
      }
    }
  }

  /** The cancellation loop sends one Cancel per active level, in order. */
  lemma {:induction false} CancelUpToPort(ls: seq<GridLevel>, n: nat, port: PortState)
    requires n <= |ls|
    ensures CancelUpTo(ls, n, port).1 == IssueAll(port, CancelRequests(ls[..n]))
  {
    if n > 0 {
      var m := n - 1;
      CancelUpToPort(ls, m, port);
      CancelUpToRest(ls, m, port);
      assert ls[..n][..m] == ls[..m];
      if IsActive(ls[m]) {
        IssueAllSnoc(port, CancelRequests(ls[..m]), Cancel(ls[m].orderId.value));
      } else {
        assert CancelRequests(ls[..m]) + [] == CancelRequests(ls[..m]);
      }
    }
  }

  /** The cancellation loop clears exactly the ids whose cancellation was
      confirmed and leaves every other level alone. */
  lemma {:induction false} CancelUpToLevel(ls: seq<GridLevel>, n: nat, port: PortState, k: nat)
    requires k < n <= |ls|
    ensures CancelUpTo(ls, n, port).0[k] == Cancelled(ls[k], NthFlag(port.cancelReplies, ActiveBefore(ls, k)))
  {
    var m := n - 1;
    if k < m {
      CancelUpToLevel(ls, m, port, k);
    } else {
      CancelUpToRest(ls, m, port);
      CancelUpToReplies(ls, m, port);
      SkipNextFlag(port.cancelReplies, ActiveBefore(ls, m));
    }
  }

  lemma CancelUpToLevels(ls: seq<GridLevel>, port: PortState)
    ensures var r := CancelUpTo(ls, |ls|, port).0;
      forall k :: 0 <= k < |ls| ==>
        r[k] == Cancelled(ls[k], NthFlag(port.cancelReplies, ActiveBefore(ls, k)))
  {
    forall k | 0 <= k < |ls|
      ensures CancelUpTo(ls, |ls|, port).0[k] == Cancelled(ls[k], NthFlag(port.cancelReplies, ActiveBefore(ls, k)))
    {
      CancelUpToLevel(ls, |ls|, port, k);
    }
  }

  /** `start_grid`: build the ladder if there is none, place an order for
      every unfilled level, and mark the grid active. */
  function StartSpec(g: GridState, port: PortState, cfg: GridConfig): Outcome
  {
    if |g.levels| == 0 then
      var init := InitSpec(g, port, cfg);
      if !init.ok then Outcome(init.g, init.port, false) else Started(init.g, init.port)
    else Started(g, port)
  }

  function Started(g: GridState, port: PortState): Outcome
  {
    var (ls, p) := PlaceUpTo(g.levels, |g.levels|, port);
    Outcome(g.(levels := ls, active := true), p, true)
  }

  /** `stop_grid`: cancel every active level's order and mark the grid
      inactive; it always succeeds. */
  function StopSpec(g: GridState, port: PortState): Outcome
  {
    var (ls, p) := CancelUpTo(g.levels, |g.levels|, port);
    Outcome(g.(levels := ls, active := false), p, true)
  }

  /** The placement pass keeps the ladder well formed, leaves filled levels
      alone and always activates the grid. */
  lemma StartedFacts(g: GridState, port: PortState)
    requires WellFormed(g.levels)
    ensures var o := Started(g, port);
      && o.ok && o.g.active && WellFormed(o.g.levels) && Evolves(g.levels, o.g.levels)
      && o.port == IssueAll(port, PlaceRequests(g.levels))
      && o.g == g.(levels := o.g.levels, active := true)
  {
    var ls := g.levels;
    PlaceUpToLevels(ls, port);
    PlaceUpToPort(ls, |ls|, port);
    assert ls[..|ls|] == ls;
  }

  /** Starting builds a ladder only when there is none, activates the grid
      even when placements fail, and fails only when building the ladder
      fails. */
  lemma StartFacts(g: GridState, port: PortState, cfg: GridConfig)
    requires WellFormed(g.levels)
    ensures var o := StartSpec(g, port, cfg);
      && WellFormed(o.g.levels)
      && (o.ok ==> o.g.active)
      && (|g.levels| > 0 ==>
            o.ok && Evolves(g.levels, o.g.levels) && o.port == IssueAll(port, PlaceRequests(g.levels)))
      && (!o.ok ==> |g.levels| == 0 && o == InitSpec(g, port, cfg))
  {
    if |g.levels| == 0 {
      InitFacts(g, port, cfg);
      var init := InitSpec(g, port, cfg);
      if init.ok {
        StartedFacts(init.g, init.port);
      }
    } else {
      StartedFacts(g, port);
    }
  }

  /** Stopping cancels only active levels, never touches a filled level,
      keeps the ladder well formed and always answers true. */
  lemma StopFacts(g: GridState, port: PortState)
    requires WellFormed(g.levels)
    ensures var o := StopSpec(g, port);
      && o.ok && !o.g.active
      && Evolves(g.levels, o.g.levels) && WellFormed(o.g.levels)
      && (forall k :: 0 <= k < |g.levels| && !IsActive(g.levels[k]) ==> o.g.levels[k] == g.levels[k])
      && (forall k :: 0 <= k < |g.levels| && o.g.levels[k] != g.levels[k] ==>
            o.g.levels[k] == g.levels[k].(orderId := None))
      && o.port == IssueAll(port, CancelRequests(g.levels))
  {
    var ls := g.levels;
    CancelUpToLevels(ls, port);
    CancelUpToPort(ls, |ls|, port);
    assert ls[..|ls|] == ls;
  }

  // ---------------------------------------------------------------------------
  // Reconciling against the open orders

  /** What a pass of `update_grid` works on: the ladder, the price seen when
      the last opposite order was considered (0.0 for none), the number of
      random draws taken, and the exchange. */
  datatype Pass = Pass(levels: seq<GridLevel>, lastPrice: real, draws: nat, port: PortState)

  /** A level whose order has disappeared from the open orders. */
  predicate Fires(l: GridLevel, ids: set<string>)
  {
    l.orderId.Some? && l.orderId.value !in ids && !l.filled
  }

  /** The level after reconciliation at time `now`. */
  function Reconciled(l: GridLevel, ids: set<string>, now: real): GridLevel
  {
    if Fires(l, ids) then l.(filled := true, fillTime := Some(now)) else l
  }

  /** The unrounded target of the opposite order for a fill at `price`. */
  function OppositePrice(side: Side, price: real, profit: real): real
  {
    if side == Buy then price * (1.0 + profit) else price * (1.0 - profit)
  }

  /** A rule pricing the opposite order of a fill, from the side and price
      of the fill and the drawn profit fraction. */
  type PriceRule = (Side, real, real) -> real

  /** The engine's rule: the target rounded to cents. */
  function OppositeTarget(side: Side, price: real, profit: real): real
  {
    Round(OppositePrice(side, price, profit), 2)
  }

  /** The level an accepted opposite order at `price` adds at position `n`. */
  function OppositeLevel(n: nat, f: GridLevel, price: real, id: OrderId): GridLevel
  {
    GridLevel(n, price, Opposite(f.side), f.quantity, Some(id), false, None, None)
  }

  /** Whether the move from `last` to `price` is more than 5% of `last`, too
      large to trade on; no previous price or no current price never is. */
  predicate TooVolatile(price: Option<real>, last: real)
  {
    Quote(price).Some? && last > 0.0 && Abs(price.value - last) > 0.05 * last
  }

  /** The guard above is the relative change `|price - last| / last` compared
      with 0.05; a negative `last` makes that ratio negative, so only a
      positive one can trip it. */
  lemma TooVolatileMeaning(price: Option<real>, last: real)
    ensures TooVolatile(price, last)
        <==> Quote(price).Some? && last != 0.0 && Abs(price.value - last) / last > 0.05
  {
    if Quote(price).Some? && last != 0.0 {
      if last > 0.0 {
        RatioAbove(Abs(price.value - last), last, 0.05);
      } else {
        RatioNegative(Abs(price.value - last), last);
      }
    }
  }

  /** `_place_opposite_order` for the filled level `f`, pricing by `rule`. */
  function OppositeStep(p: Pass, f: GridLevel, rand: nat -> real, rule: PriceRule): Pass
  {
    if CountActive(p.levels) >= ActiveCap then p
    else
      var price := p.port.Price();
      var port1 := p.port.AfterPrice();
      if TooVolatile(price, p.lastPrice) then p.(port := port1)
      else if rand(p.draws) > PlaceOdds then
        p.(port := port1, lastPrice := PriceOrZero(price), draws := p.draws + 1)
      else
        var target := rule(f.side, f.price, ProfitDraw(rand(p.draws + 1)));
        var id := port1.PlaceReply();
        var port2 := port1.Issue(Place(Opposite(f.side), Limit, f.quantity, PriceField(Some(target))));
        var levels := if id.Some? then p.levels + [OppositeLevel(|p.levels|, f, target, id.value)] else p.levels;
        Pass(levels, PriceOrZero(price), p.draws + 2, port2)
  }

  /** An opposite order keeps the ladder and appends at most one level, an
      active one, and only by consuming a placement reply. */
  lemma OppositeStepShape(p: Pass, f: GridLevel, rand: nat -> real, rule: PriceRule)
    ensures var r := OppositeStep(p, f, rand, rule);
      && (|r.levels| == |p.levels| || |r.levels| == |p.levels| + 1)
      && r.levels[..|p.levels|] == p.levels
      && |r.port.placeReplies| <= |p.port.placeReplies|
      && (|r.levels| > |p.levels| ==>
            && |r.port.placeReplies| < |p.port.placeReplies|
            && var n := r.levels[|p.levels|];
               n.level == |p.levels| && IsActive(n) && n.fillTime.None? && n.fillPrice.None?)
  {
    var r := OppositeStep(p, f, rand, rule);
    if |r.levels| > |p.levels| {
      assert r.levels == p.levels + [r.levels[|p.levels|]];
    } else {
      assert r.levels == p.levels;
    }
  }

  /** The engine's target lies beyond the fill price: above it after a buy
      and below it after a sell, also after rounding to cents. */
  lemma TargetBeyondFill(side: Side, price: real, profit: real)
    requires price > 0.0 && MinProfit <= profit < MaxProfit
    ensures side == Buy ==> OppositeTarget(side, price, profit) >= Round(price, 2)
    ensures side == Sell ==> OppositeTarget(side, price, profit) <= Round(price, 2)
  {
    var t := OppositePrice(side, price, profit);
    if side == Buy {
      assert t >= price by { assert t - price == price * profit; }
      RoundMonotone(price, t, 2);
    } else {
      assert t <= price by { assert price - t == price * profit; }
      RoundMonotone(t, price, 2);
    }
  }

  /** The guards of an opposite order: at the cap nothing happens, on a
      volatile price only the price is read, and on a losing draw no order
      is sent. */
  lemma OppositeGuards(p: Pass, f: GridLevel, rand: nat -> real, rule: PriceRule)
    ensures var r := OppositeStep(p, f, rand, rule);
      && (CountActive(p.levels) >= ActiveCap ==> r == p)
      && (CountActive(p.levels) < ActiveCap && TooVolatile(p.port.Price(), p.lastPrice) ==>
            r == p.(port := p.port.AfterPrice()))
      && ((CountActive(p.levels) < ActiveCap && !TooVolatile(p.port.Price(), p.lastPrice)
           && rand(p.draws) > PlaceOdds) ==> r.levels == p.levels && r.port == p.port.AfterPrice())
  {
  }

  /** What an accepted opposite order adds: one level at the end, on the
      other side, with the same quantity, at the rule's price for the second
      draw, with an order id, within the cap. */
  lemma OppositeFacts(p: Pass, f: GridLevel, rand: nat -> real, rule: PriceRule)
    ensures var r := OppositeStep(p, f, rand, rule);
      |r.levels| > |p.levels| ==>
        var n := r.levels[|p.levels|];
        && CountActive(p.levels) < ActiveCap
        && n.level == |p.levels| && n.side == Opposite(f.side) && n.quantity == f.quantity
        && IsActive(n) && n.fillTime.None? && n.fillPrice.None?
        && n.price == rule(f.side, f.price, ProfitDraw(rand(p.draws + 1)))
        && CountActive(r.levels) <= ActiveCap
  {
    var r := OppositeStep(p, f, rand, rule);
    if |r.levels| > |p.levels| {
      CountActiveAppend(p.levels, r.levels[|p.levels|]);
      assert r.levels == p.levels + [r.levels[|p.levels|]];
    }
  }

  /** With the engine's rule, an opposite order after a buy is priced at or
      above the fill, and after a sell at or below it. */
  lemma OppositeBeyondFill(p: Pass, f: GridLevel, rand: nat -> real)
    requires RandomStream(rand) && f.price > 0.0
    ensures var r := OppositeStep(p, f, rand, OppositeTarget);
      |r.levels| > |p.levels| ==>
        && (f.side == Buy ==> r.levels[|p.levels|].price >= Round(f.price, 2))
        && (f.side == Sell ==> r.levels[|p.levels|].price <= Round(f.price, 2))
  {
    OppositeFacts(p, f, rand, OppositeTarget);
    ProfitRange(rand(p.draws + 1));
    TargetBeyondFill(f.side, f.price, ProfitDraw(rand(p.draws + 1)));
  }

  /** One iteration of the reconciliation loop, at position `i`: a level
      whose order is gone is marked filled and an opposite order considered. */
  function Visit(p: Pass, ids: set<string>, now: real, rand: nat -> real, rule: PriceRule, i: nat): Pass
    requires i < |p.levels|
  {
    if Fires(p.levels[i], ids) then
      var f := Reconciled(p.levels[i], ids, now);
      OppositeStep(p.(levels := p.levels[i := f]), f, rand, rule)
    else p
  }

  /** A visit reconciles the level at `i`, leaves the other levels alone and
      appends at most one active level, consuming a placement reply. */
  lemma VisitFacts(p: Pass, ids: set<string>, now: real, rand: nat -> real, rule: PriceRule, i: nat)
    requires i < |p.levels|
    ensures var r := Visit(p, ids, now, rand, rule, i);
      && |p.levels| <= |r.levels| <= |p.levels| + 1
      && r.levels[i] == Reconciled(p.levels[i], ids, now)
      && (forall k :: 0 <= k < |p.levels| && k != i ==> r.levels[k] == p.levels[k])
      && |r.port.placeReplies| <= |p.port.placeReplies|
      && (|r.levels| > |p.levels| ==>
            && |r.port.placeReplies| < |p.port.placeReplies|
            && var n := r.levels[|p.levels|];
               n.level == |p.levels| && IsActive(n) && n.fillTime.None? && n.fillPrice.None?)
  {
    if Fires(p.levels[i], ids) {
      var f := Reconciled(p.levels[i], ids, now);
      var p1 := p.(levels := p.levels[i := f]);
      var r := OppositeStep(p1, f, rand, rule);
      OppositeStepShape(p1, f, rand, rule);
      assert forall k :: 0 <= k < |p.levels| ==> r.levels[k] == r.levels[..|p.levels|][k];
    }
  }

  /** The reconciliation loop of `update_grid` from position `i` on. The
      ladder may grow while it runs, and the levels it appends are visited
      too; every append consumes a placement reply, so the pass ends. */
  function UpdateFrom(p: Pass, ids: set<string>, now: real, rand: nat -> real, rule: PriceRule, i: nat): (r: Pass)
    requires i <= |p.levels|
    decreases |p.port.placeReplies|, |p.levels| - i
  {
    if i == |p.levels| then p
    else
      VisitFacts(p, ids, now, rand, rule, i);
      UpdateFrom(Visit(p, ids, now, rand, rule, i), ids, now, rand, rule, i + 1)
  }

  /** `update_grid`: nothing to do while inactive or when the open orders are
      unavailable or empty; otherwise one reconciliation pass. */
  function UpdateSpec(g: GridState, port: PortState, now: real, rand: nat -> real): Outcome
  {
    if !g.active then Outcome(g, port, true)
    else
      var ids := Snapshot(port.OpenOrders());
      var port1 := port.AfterOpenOrders();
      if ids.None? then Outcome(g, port1, true)
      else
        var r := UpdateFrom(Pass(g.levels, g.lastPrice, g.draws, port1), ids.value, now, rand, OppositeTarget, 0);
        Outcome(g.(levels := r.levels, lastPrice := r.lastPrice, draws := r.draws), r.port, true)
  }

  /** A level appended by an opposite order and then reconciled. */
  predicate AppendedLevel(l: GridLevel, k: nat, ids: set<string>, now: real)
  {
    && l.level == k && l.orderId.Some? && l.fillPrice.None?
    && (l.filled <==> l.orderId.value !in ids)
    && l.fillTime == (if l.filled then Some(now) else None)
  }

  /** A pass never shortens the ladder. */
  lemma {:induction false} UpdateFromGrows(p: Pass, ids: set<string>, now: real, rand: nat -> real, rule: PriceRule, i: nat)
    requires i <= |p.levels|
    ensures |UpdateFrom(p, ids, now, rand, rule, i).levels| >= |p.levels|
    decreases |p.port.placeReplies|, |p.levels| - i
  {
    if i < |p.levels| {
      VisitFacts(p, ids, now, rand, rule, i);
      UpdateFromGrows(Visit(p, ids, now, rand, rule, i), ids, now, rand, rule, i + 1);
    }
  }

  /** The level at position `k` of the starting ladder after a pass from `i`. */
  lemma {:induction false} UpdateFromAt(p: Pass, ids: set<string>, now: real, rand: nat -> real, rule: PriceRule, i: nat, k: nat)
    requires i <= |p.levels| && k < |p.levels|
    ensures var r := UpdateFrom(p, ids, now, rand, rule, i);
      k < |r.levels| && r.levels[k] == if k < i then p.levels[k] else Reconciled(p.levels[k], ids, now)
    decreases |p.port.placeReplies|, |p.levels| - i
  {
    if i < |p.levels| {
      var p2 := Visit(p, ids, now, rand, rule, i);
      VisitFacts(p, ids, now, rand, rule, i);
      UpdateFromAt(p2, ids, now, rand, rule, i + 1, k);
    }
  }

  /** After a pass, every level of the ladder it started with is reconciled:
      filled exactly when its order is gone and it was not filled before. */
  lemma UpdateFromOld(p: Pass, ids: set<string>, now: real, rand: nat -> real, rule: PriceRule)
    ensures var r := UpdateFrom(p, ids, now, rand, rule, 0);
      && |r.levels| >= |p.levels|
      && forall k :: 0 <= k < |p.levels| ==> r.levels[k] == Reconciled(p.levels[k], ids, now)
  {
    UpdateFromGrows(p, ids, now, rand, rule, 0);
    forall k | 0 <= k < |p.levels|
      ensures UpdateFrom(p, ids, now, rand, rule, 0).levels[k] == Reconciled(p.levels[k], ids, now)
    {
      UpdateFromAt(p, ids, now, rand, rule, 0, k);
    }
  }

  /** A level freshly appended by an opposite order, once reconciled. */
  lemma FreshReconciled(l: GridLevel, n: nat, ids: set<string>, now: real)
    requires l.level == n && IsActive(l) && l.fillTime.None? && l.fillPrice.None?
    ensures AppendedLevel(Reconciled(l, ids, now), n, ids, now)
  {
  }

  /** The level at position `k`, past the starting ladder, after a pass from `i`. */
  lemma {:induction false} AppendedAt(p: Pass, ids: set<string>, now: real, rand: nat -> real, rule: PriceRule, i: nat, k: nat)
    requires i <= |p.levels| <= k < |UpdateFrom(p, ids, now, rand, rule, i).levels|
    ensures AppendedLevel(UpdateFrom(p, ids, now, rand, rule, i).levels[k], k, ids, now)
    decreases |p.port.placeReplies|, |p.levels| - i
  {
    var p2 := Visit(p, ids, now, rand, rule, i);
    assert UpdateFrom(p, ids, now, rand, rule, i) == UpdateFrom(p2, ids, now, rand, rule, i + 1);
    VisitFacts(p, ids, now, rand, rule, i);
    if k < |p2.levels| {
      assert k == |p.levels|;
      UpdateFromAt(p2, ids, now, rand, rule, i + 1, k);
      FreshReconciled(p2.levels[k], k, ids, now);
    } else {
      AppendedAt(p2, ids, now, rand, rule, i + 1, k);
    }
  }

  /** Every level a pass appends is an order placed during the pass, itself
      reconciled in the same pass. */
  lemma UpdateFromAppended(p: Pass, ids: set<string>, now: real, rand: nat -> real, rule: PriceRule)
    ensures var r := UpdateFrom(p, ids, now, rand, rule, 0);
      forall k :: |p.levels| <= k < |r.levels| ==> AppendedLevel(r.levels[k], k, ids, now)
  {
    forall k | |p.levels| <= k < |UpdateFrom(p, ids, now, rand, rule, 0).levels|
      ensures AppendedLevel(UpdateFrom(p, ids, now, rand, rule, 0).levels[k], k, ids, now)
    {
      AppendedAt(p, ids, now, rand, rule, 0, k);
    }
  }

  /** One visit never raises the number of active levels past the cap unless
      it was already past it. */
  lemma VisitActive(p: Pass, ids: set<string>, now: real, rand: nat -> real, rule: PriceRule, i: nat)
    requires i < |p.levels|
    ensures var r := Visit(p, ids, now, rand, rule, i);
      CountActive(r.levels) <= CountActive(p.levels) || CountActive(r.levels) <= ActiveCap
  {
    if Fires(p.levels[i], ids) {
      var f := Reconciled(p.levels[i], ids, now);
      var p1 := p.(levels := p.levels[i := f]);
      CountActiveUpdate(p.levels, i, f);
      OppositeFacts(p1, f, rand, rule);
      OppositeStepShape(p1, f, rand, rule);
      var r := OppositeStep(p1, f, rand, rule);
      if |r.levels| == |p1.levels| {
        assert r.levels == r.levels[..|p1.levels|];
      }
    }
  }

  /** A pass never raises the number of active levels past the cap unless it
      was already past it: the opposite-order guard. */
  lemma {:induction false} UpdateFromActive(p: Pass, ids: set<string>, now: real, rand: nat -> real, rule: PriceRule, i: nat)
    requires i <= |p.levels|
    ensures var r := UpdateFrom(p, ids, now, rand, rule, i);
      CountActive(r.levels) <= CountActive(p.levels) || CountActive(r.levels) <= ActiveCap
    decreases |p.port.placeReplies|, |p.levels| - i
  {
    if i < |p.levels| {
      VisitActive(p, ids, now, rand, rule, i);
      UpdateFromActive(Visit(p, ids, now, rand, rule, i), ids, now, rand, rule, i + 1);
    }
  }

  /** A pass in which no level from `i` on fires changes nothing. */
  lemma {:induction false} QuietPass(p: Pass, ids: set<string>, now: real, rand: nat -> real, rule: PriceRule, i: nat)
    requires i <= |p.levels|
    requires forall k :: i <= k < |p.levels| ==> !Fires(p.levels[k], ids)
    ensures UpdateFrom(p, ids, now, rand, rule, i) == p
    decreases |p.levels| - i
  {
    if i < |p.levels| {
      QuietPass(p, ids, now, rand, rule, i + 1);
    }
  }

  /** What a whole pass does to a well-formed ladder: it stays well formed,
      it evolves, and afterwards no level fires against the same open orders. */
  lemma PassFacts(p: Pass, ids: set<string>, now: real, rand: nat -> real, rule: PriceRule)
    requires WellFormed(p.levels)
    ensures var r := UpdateFrom(p, ids, now, rand, rule, 0);
      && WellFormed(r.levels) && Evolves(p.levels, r.levels)
      && forall k :: 0 <= k < |r.levels| ==> !Fires(r.levels[k], ids)
  {
    UpdateFromOld(p, ids, now, rand, rule);
    UpdateFromAppended(p, ids, now, rand, rule);
  }

  /** Reconciling a second time against the same open orders changes
      nothing, whatever the time. */
  lemma PassSettles(p: Pass, ids: set<string>, now: real, now': real, rand: nat -> real, rule: PriceRule)
    requires WellFormed(p.levels)
    ensures var r := UpdateFrom(p, ids, now, rand, rule, 0);
      UpdateFrom(r, ids, now', rand, rule, 0) == r
  {
    PassFacts(p, ids, now, rand, rule);
    QuietPass(UpdateFrom(p, ids, now, rand, rule, 0), ids, now', rand, rule, 0);
  }

  /** `update_grid` as a whole: it always answers true; while inactive, or
      when the open orders are unavailable or empty, it changes nothing but
      the exchange's open-order queue; otherwise the ladder stays well
      formed, evolves, keeps the opposite-order cap, and no level fires any
      more against the open orders it saw. */
  lemma UpdateFacts(g: GridState, port: PortState, now: real, rand: nat -> real)
    requires WellFormed(g.levels) && RandomStream(rand)
    ensures var o := UpdateSpec(g, port, now, rand);
      && o.ok
      && (!g.active ==> o.g == g && o.port == port)
      && (g.active && Snapshot(port.OpenOrders()).None? ==> o.g == g && o.port == port.AfterOpenOrders())
      && o.g.active == g.active && o.g.currentPrice == g.currentPrice
      && WellFormed(o.g.levels) && Evolves(g.levels, o.g.levels)
      && (CountActive(o.g.levels) <= CountActive(g.levels) || CountActive(o.g.levels) <= ActiveCap)
      && (g.active && Snapshot(port.OpenOrders()).Some? ==>
            forall k :: 0 <= k < |o.g.levels| ==> !Fires(o.g.levels[k], Snapshot(port.OpenOrders()).value))
  {
    var ids := Snapshot(port.OpenOrders());
    if g.active && ids.Some? {
      var p := Pass(g.levels, g.lastPrice, g.draws, port.AfterOpenOrders());
      PassFacts(p, ids.value, now, rand, OppositeTarget);
      UpdateFromActive(p, ids.value, now, rand, OppositeTarget, 0);
    }
  }

  // ---------------------------------------------------------------------------
  // Status

  /** The answer of `get_grid_status`. */
  datatype GridStatus = GridStatus(
    active: bool,
    totalLevels: nat,
    activeOrders: nat,
    filledOrders: nat,
    currentPrice: real,
    lower: real,
    upper: real)

  /** The status of a ladder: active and filled levels never outnumber the
      levels, and the rest are idle. */
  function StatusOf(g: GridState, cfg: GridConfig): (s: GridStatus)
    ensures s.totalLevels == |g.levels|
    ensures s.activeOrders + s.filledOrders <= s.totalLevels
    ensures s.totalLevels - s.activeOrders - s.filledOrders == CountIdle(g.levels)
  {
    CountsPartition(g.levels);
    GridStatus(g.active, |g.levels|, CountActive(g.levels), CountFilled(g.levels),
               g.currentPrice, cfg.lowerPrice, cfg.upperPrice)
  }

  /** The counting loop of `sum(1 for level ... if level.order_id and not level.filled)`. */
  method ActiveOrders(ls: seq<GridLevel>) returns (n: nat)
    ensures n == CountActive(ls)
  {
    n := 0;
    var i := 0;
    while i < |ls|
      invariant 0 <= i <= |ls|
      invariant n == CountActive(ls[..i])
    {
      assert ls[..i + 1][..i] == ls[..i];
      if IsActive(ls[i]) {
        n := n + 1;
      }
      i := i + 1;
    }
    assert ls[..|ls|] == ls;
  }

  /** The counting loop of `sum(1 for level ... if level.filled)`. */
  method FilledOrders(ls: seq<GridLevel>) returns (n: nat)
    ensures n == CountFilled(ls)
  {
    n := 0;
    var i := 0;
    while i < |ls|
      invariant 0 <= i <= |ls|
      invariant n == CountFilled(ls[..i])
    {
      assert ls[..i + 1][..i] == ls[..i];
      if ls[i].filled {
        n := n + 1;
      }
      i := i + 1;
    }
    assert ls[..|ls|] == ls;
  }

  // ---------------------------------------------------------------------------
  // The engine

  /** The grid engine: its ladder and flags are updated in place by each
      operation, exactly as the corresponding function of this module says. */
  class GridEngine {
    const client: Exchange
    const cfg: GridConfig
    const symbol: string
    /** The source of `random.random()` draws; `draws` of them are used up. */
    const rand: nat -> real

    var levels: seq<GridLevel>
    var active: bool
    var currentPrice: real
    var lastPrice: real
    var draws: nat

    ghost predicate Valid()
      reads this
    {
      WellFormed(levels) && RandomStream(rand)
    }

    function State(): GridState
      reads this
    {
      GridState(levels, active, currentPrice, lastPrice, draws)
    }

    constructor (client: Exchange, cfg: GridConfig, symbol: string, rand: nat -> real)
      requires RandomStream(rand)
      ensures Valid()
      ensures this.client == client && this.cfg == cfg && this.symbol == symbol && this.rand == rand
      ensures State() == GridState([], false, 0.0, 0.0, 0)
    {
      this.client := client;
      this.cfg := cfg;
      this.symbol := symbol;
      this.rand := rand;
      levels := [];
      active := false;
      currentPrice := 0.0;
      lastPrice := 0.0;
      draws := 0;
    }

    method InitializeGrid() returns (ok: bool)
      requires Valid()
      modifies this, client
      ensures Valid()
      ensures Outcome(State(), client.st, ok) == InitSpec(old(State()), old(client.st), cfg)
    {
      var price := client.GetCurrentPrice();
      if Quote(price).None? {
        return false;
      }
      currentPrice := price.value;
      if cfg.levels == 1 {
        return false;
      }
      levels := [];
      for i := 0 to RangeLength(cfg.levels)
        invariant levels == Ladder(cfg, currentPrice)[..i]
        invariant currentPrice == price.value && client.st == old(client.st).AfterPrice()
        invariant active == old(active) && lastPrice == old(lastPrice) && draws == old(draws)
      {
        levels := levels + [NewLevel(cfg, currentPrice, i)];
      }
      assert levels == Ladder(cfg, currentPrice);
      LadderLevels(cfg, currentPrice);
      return true;
    }

    method StartGrid() returns (ok: bool)
      requires Valid()
      modifies this, client
      ensures Valid()
      ensures Outcome(State(), client.st, ok) == StartSpec(old(State()), old(client.st), cfg)
    {
      if |levels| == 0 {
        var init := InitializeGrid();
        if !init {
          return false;
        }
      }
      ghost var g := State();
      ghost var port := client.st;
      PlaceInitialOrders();
      active := true;
      StartedFacts(g, port);
      return true;
    }

    /** The placement loop of `start_grid`: one Limit order per unfilled
        level, whose id the level keeps when the exchange accepts it. */
    method PlaceInitialOrders()
      modifies this, client
      ensures (levels, client.st) == PlaceUpTo(old(levels), |old(levels)|, old(client.st))
      ensures active == old(active) && currentPrice == old(currentPrice)
      ensures lastPrice == old(lastPrice) && draws == old(draws)
    {
      var i := 0;
      while i < |levels|
        invariant 0 <= i <= |levels| == |old(levels)|
        invariant (levels, client.st) == PlaceUpTo(old(levels), i, old(client.st))
        invariant active == old(active) && currentPrice == old(currentPrice)
        invariant lastPrice == old(lastPrice) && draws == old(draws)
      {
        var l := levels[i];
        if !l.filled {
          var id := client.PlaceOrder(l.side, Limit, l.quantity, Some(l.price));
          if id.Some? {
            levels := levels[i := l.(orderId := id)];
          }
        }
        i := i + 1;
      }
    }

    method StopGrid() returns (ok: bool)
      requires Valid()
      modifies this, client
      ensures Valid()
      ensures Outcome(State(), client.st, ok) == StopSpec(old(State()), old(client.st))
    {
      var i := 0;
      while i < |levels|
        invariant 0 <= i <= |levels| == |old(levels)|
        invariant (levels, client.st) == CancelUpTo(old(levels), i, old(client.st))
        invariant active == old(active) && currentPrice == old(currentPrice)
        invariant lastPrice == old(lastPrice) && draws == old(draws)
      {
        var l := levels[i];
        if l.orderId.Some? && !l.filled {
          var cancelled := client.CancelOrder(l.orderId.value);
          if cancelled {
            levels := levels[i := l.(orderId := None)];
          }
        }
        i := i + 1;
      }
      active := false;
      StopFacts(old(State()), old(client.st));
      return true;
    }

    method UpdateGrid(now: real) returns (ok: bool)
      requires Valid()
      modifies this, client
      ensures Valid()
      ensures Outcome(State(), client.st, ok) == UpdateSpec(old(State()), old(client.st), now, rand)
    {
      if !active {
        return true;
      }
      var orders := client.GetOpenOrders();
      var ids := Snapshot(orders);
      if ids.None? {
        return true;
      }
      ghost var start := Pass(levels, lastPrice, draws, client.st);
      var i := 0;
      while i < |levels|
        invariant i <= |levels|
        invariant UpdateFrom(Pass(levels, lastPrice, draws, client.st), ids.value, now, rand, OppositeTarget, i)
               == UpdateFrom(start, ids.value, now, rand, OppositeTarget, 0)
        invariant active == old(active) && currentPrice == old(currentPrice)
        decreases |client.st.placeReplies|, |levels| - i
      {
        ghost var cur := Pass(levels, lastPrice, draws, client.st);
        VisitFacts(cur, ids.value, now, rand, OppositeTarget, i);
        if Fires(levels[i], ids.value) {
          var f := Reconciled(levels[i], ids.value, now);
          levels := levels[i := f];
          var _ := PlaceOppositeOrder(f);
        }
        assert Pass(levels, lastPrice, draws, client.st) == Visit(cur, ids.value, now, rand, OppositeTarget, i);
        i := i + 1;
      }
      UpdateFacts(old(State()), old(client.st), now, rand);
      return true;
    }

    /** `_place_opposite_order` for the level `f` that has just filled. */
    method PlaceOppositeOrder(f: GridLevel) returns (placed: bool)
      modifies this, client
      ensures Pass(levels, lastPrice, draws, client.st)
           == OppositeStep(old(Pass(levels, lastPrice, draws, client.st)), f, rand, OppositeTarget)
      ensures active == old(active) && currentPrice == old(currentPrice)
      ensures placed <==> |levels| > old(|levels|)
    {
      var count := ActiveOrders(levels);
      if count >= ActiveCap {
        return false;
      }
      var price := client.GetCurrentPrice();
      if TooVolatile(price, lastPrice) {
        return false;
      }
      lastPrice := PriceOrZero(price);
      var u := rand(draws);
      draws := draws + 1;
      if u > PlaceOdds {
        return false;
      }
      var profit := ProfitDraw(rand(draws));
      draws := draws + 1;
      var target := OppositeTarget(f.side, f.price, profit);
      var id := client.PlaceOrder(Opposite(f.side), Limit, f.quantity, Some(target));
      if id.Some? {
        levels := levels + [OppositeLevel(|levels|, f, target, id.value)];
        return true;
      }
      return false;
    }

    method GetGridStatus() returns (s: GridStatus)
      ensures s == StatusOf(State(), cfg)
    {
      var a := ActiveOrders(levels);
      var n := FilledOrders(levels);
      s := GridStatus(active, |levels|, a, n, currentPrice, cfg.lowerPrice, cfg.upperPrice);
    }

    /** `get_grid_pnl`: the unrealised PnL of the positions on the traded
        symbol; none, or no positions at all, is 0.0. */
    method GetGridPnl() returns (pnl: real)
      modifies client
      ensures client.st == old(client.st).AfterPositions()
      ensures pnl == UnrealisedPnl(old(client.st).Positions().GetOr([]), symbol)
    {
      var positions := client.GetPositions();
      if positions.None? || |positions.value| == 0 {
        return 0.0;
      }
      pnl := SumOn(positions.value, symbol, Unrealised);
    }

    predicate IsActive()
      reads this
    {
      active
    }
  }
}
