/** The auto-recovery wrapper's restart limiter and health check.

    A restart is allowed only while fewer than ten restarts happened in the
    last hour; the list of recent restart times is pruned at every request.
    The health check reads a record of the bot's health indicators. */
module Recovery {
  import opened Wrappers

  /** `max_restarts_per_hour`. */
  const MaxRestartsPerHour: nat := 10

  /** The length of the window, in seconds. */
  const Hour: real := 3600.0

  /** Whether the restart at `t` still counts at time `now`. */
  predicate Recent(t: real, now: real)
  {
    now - t < Hour
  }

  /** The restart times that still count at `now`, in their order. */
  function Window(ts: seq<real>, now: real): (w: seq<real>)
    ensures |w| <= |ts|
  {
    if |ts| == 0 then []
    else Window(ts[..|ts| - 1], now) + (if Recent(ts[|ts| - 1], now) then [ts[|ts| - 1]] else [])
  }

  lemma WindowSnoc(ts: seq<real>, t: real, now: real)
    ensures Window(ts + [t], now) == Window(ts, now) + (if Recent(t, now) then [t] else [])
  {
    assert (ts + [t])[..|ts|] == ts;
  }

  /** The window keeps exactly the recent times. */
  lemma {:induction false} WindowMembers(ts: seq<real>, now: real)
    ensures forall t :: t in Window(ts, now) <==> t in ts && Recent(t, now)
  {
    if |ts| > 0 {
      var init := ts[..|ts| - 1];
      WindowMembers(init, now);
      assert ts == init + [ts[|ts| - 1]];
    }
  }

  /** Pruning at a time no earlier than a previous pruning gives the same
      window as pruning once, at the later time. */
  lemma {:induction false} WindowLater(ts: seq<real>, earlier: real, now: real)
    requires earlier <= now
    ensures Window(Window(ts, earlier), now) == Window(ts, now)
  {
    if |ts| > 0 {
      var init := ts[..|ts| - 1];
      var t := ts[|ts| - 1];
      WindowLater(init, earlier, now);
      assert ts == init + [t];
      WindowSnoc(init, t, earlier);
      WindowSnoc(init, t, now);
      if Recent(t, earlier) {
        WindowSnoc(Window(init, earlier), t, now);
      } else {
        assert Window(ts, earlier) == Window(init, earlier);
      }
    }
  }

  /** A window is unchanged by pruning it again at the same time. */
  lemma WindowIdempotent(ts: seq<real>, now: real)
    ensures Window(Window(ts, now), now) == Window(ts, now)
  {
    WindowLater(ts, now, now);
  }

  /** A restart recorded at `t` joins the window at `now` of both
      histories alike, when they agreed on that window before. */
  lemma AppendAt(a: seq<real>, b: seq<real>, t: real, now: real)
    requires Window(a, now) == Window(b, now)
    ensures Window(a + [t], now) == Window(b + [t], now) == Window(b, now) + (if Recent(t, now) then [t] else [])
  {
    WindowSnoc(a, t, now);
    WindowSnoc(b, t, now);
  }

  /** A history whose every time is recent at `now` is its own window. */
  lemma {:induction false} WindowAllRecent(ts: seq<real>, now: real)
    requires forall i :: 0 <= i < |ts| ==> Recent(ts[i], now)
    ensures Window(ts, now) == ts
  {
    if |ts| > 0 {
      WindowAllRecent(ts[..|ts| - 1], now);
    }
  }

  /** A history none of whose times is recent at `now` has an empty window. */
  lemma {:induction false} WindowNoneRecent(ts: seq<real>, now: real)
    requires forall i :: 0 <= i < |ts| ==> !Recent(ts[i], now)
    ensures Window(ts, now) == []
  {
    if |ts| > 0 {
      WindowNoneRecent(ts[..|ts| - 1], now);
    }
  }

  /** A clock that steps back defeats the limit: restarts at 0 to 9, then
      at 10000 (an hour after them, so the window is empty), then at 5
      (the window holds only 10000) are each allowed, yet twelve of them
      lie within the hour before 5. */
  lemma BackwardClockExceedsLimit()
    ensures var early := [0.0, 1.0, 2.0, 3.0, 4.0, 5.0, 6.0, 7.0, 8.0, 9.0];
      && |Window(early, 10000.0)| == 0
      && |Window(early + [10000.0], 5.0)| >= MaxRestartsPerHour
      && |Window(Window(early, 10000.0) + [10000.0], 5.0)| < MaxRestartsPerHour
      && |Window(early + [10000.0, 5.0], 5.0)| == 12
  {
    var early := [0.0, 1.0, 2.0, 3.0, 4.0, 5.0, 6.0, 7.0, 8.0, 9.0];
    WindowNoneRecent(early, 10000.0);
    WindowAllRecent(early + [10000.0], 5.0);
    WindowAllRecent(early + [10000.0, 5.0], 5.0);
    assert Window(early, 10000.0) + [10000.0] == [10000.0];
    WindowAllRecent([10000.0], 5.0);
  }

  /** The list comprehension of `can_restart`: the recent times, in order. */
  method Prune(ts: seq<real>, now: real) returns (kept: seq<real>)
    ensures kept == Window(ts, now)
  {
    kept := [];
    var i := 0;
    while i < |ts|
      invariant i <= |ts|
      invariant kept == Window(ts[..i], now)
    {
      WindowSnoc(ts[..i], ts[i], now);
      assert ts[..i + 1] == ts[..i] + [ts[i]];
      if now - ts[i] < Hour {
        kept := kept + [ts[i]];
      }
      i := i + 1;
    }
    assert ts[..|ts|] == ts;
  }

  /** The health indicators the check reads; an absent indicator is None. */
  datatype Health = Health(
    botRunning: Option<bool>,
    mainThreadAlive: Option<bool>,
    bybitConnected: Option<bool>,
    apiConnection: Option<bool>,
    riskSwitchTriggered: Option<bool>)

  /** Python truthiness of an indicator: absent counts as false. */
  predicate Holds(o: Option<bool>)
  {
    o == Some(true)
  }

  /** The health the check is evidently meant to report: there is a bot,
      the four liveness indicators hold and the risk switch is not set. */
  predicate Healthy(hasBot: bool, h: Health)
  {
    && hasBot
    && Holds(h.botRunning) && Holds(h.mainThreadAlive)
    && Holds(h.bybitConnected) && Holds(h.apiConnection)
    && !Holds(h.riskSwitchTriggered)
  }

  /** The check as written: without a bot it answers false; with one, the
      call to the missing `health_check` method raises `AttributeError`,
      which the handler turns into false. The answer is always false. */
  function HealthCheckAsWritten(hasBot: bool, h: Health): (ok: bool)
    ensures !ok
  {
    false
  }

  /** A record every indicator of which is healthy still fails the check as
      written. */
  lemma HealthCheckNeverPasses()
    ensures var h := Health(Some(true), Some(true), Some(true), Some(true), Some(false));
      Healthy(true, h) && !HealthCheckAsWritten(true, h)
  {
  }

  /** The critical issues of a record, in the order the check lists them. */
  function Issues(h: Health): (r: seq<string>)
    ensures |r| <= 5
  {
    (if !Holds(h.botRunning) then ["Bot not running"] else [])
    + (if !Holds(h.mainThreadAlive) then ["Main thread dead"] else [])
    + (if !Holds(h.bybitConnected) then ["Bybit disconnected"] else [])
    + (if !Holds(h.apiConnection) then ["API connection failed"] else [])
    + (if Holds(h.riskSwitchTriggered) then ["Risk switch triggered"] else [])
  }

  /** The restart limiter of the auto-recovery bot. `accepted` records every
      restart ever allowed and `lastNow` the time of the latest request; they exist
      only to state what the limiter guarantees. */
  class AutoRecovery {
    var hasBot: bool
    var running: bool
    var restartCount: nat
    var restartTimes: seq<real>
    ghost var accepted: seq<real>
    ghost var lastNow: real

    /** The pruned list says everything about the restarts of the last hour
        that the full history says, and never holds more than the cap. */
    ghost predicate Valid()
      reads this
    {
      && |restartTimes| <= MaxRestartsPerHour
      && Window(accepted, lastNow) == Window(restartTimes, lastNow)
    }

    constructor ()
      ensures Valid()
      ensures !hasBot && !running && restartCount == 0 && restartTimes == []
      ensures accepted == [] && lastNow == 0.0
    {
      hasBot := false;
      running := false;
      restartCount := 0;
      restartTimes := [];
      accepted := [];
      lastNow := 0.0;
    }

    /** `can_restart` at time `now`. The pruning and the answer hold for
        any `now`; the limiter's invariant is kept only when the clock has
        not stepped back since the previous request. */
    method CanRestart(now: real) returns (ok: bool)
      modifies this
      ensures lastNow == now
      ensures restartTimes == Window(old(restartTimes), now)
      ensures ok <==> |restartTimes| < MaxRestartsPerHour
      ensures hasBot == old(hasBot) && running == old(running) && restartCount == old(restartCount)
      ensures accepted == old(accepted)
      ensures old(Valid()) && old(lastNow) <= now ==> Valid()
    {
      var kept := Prune(restartTimes, now);
      if Valid() && lastNow <= now {
        WindowLater(accepted, lastNow, now);
        WindowLater(restartTimes, lastNow, now);
        WindowIdempotent(restartTimes, now);
      }
      restartTimes := kept;
      lastNow := now;
      ok := |restartTimes| < MaxRestartsPerHour;
    }

    /** The bookkeeping of `restart_bot`: `can_restart` reads the clock as
        `now`, and the time recorded for an allowed restart is a second
        reading, `stamp`. A refused restart changes nothing but the
        pruning; an allowed one counts the restart and records `stamp`.
        While the clock never steps back, no more than the cap of allowed
        restarts fall in the hour before `now`, nor in the hour before any
        later time. */
    method RestartBot(now: real, stamp: real) returns (allowed: bool)
      modifies this
      ensures lastNow == now
      ensures !allowed ==> restartCount == old(restartCount) && restartTimes == Window(old(restartTimes), now)
                           && accepted == old(accepted)
      ensures allowed ==> restartCount == old(restartCount) + 1
                          && restartTimes == Window(old(restartTimes), now) + [stamp]
                          && accepted == old(accepted) + [stamp]
      ensures allowed <==> |Window(old(restartTimes), now)| < MaxRestartsPerHour
      ensures old(Valid()) && old(lastNow) <= now ==>
                Valid() && |Window(accepted, now)| <= MaxRestartsPerHour
                && forall later :: now <= later ==> |Window(accepted, later)| <= MaxRestartsPerHour
    {
      ghost var wasValid := Valid() && lastNow <= now;
      allowed := CanRestart(now);
      if allowed {
        if wasValid {
          AppendAt(accepted, restartTimes, stamp, now);
        }
        restartCount := restartCount + 1;
        restartTimes := restartTimes + [stamp];
        accepted := accepted + [stamp];
      }
      if wasValid {
        assert |Window(accepted, now)| <= |restartTimes|;
        forall later | now <= later
          ensures |Window(accepted, later)| <= MaxRestartsPerHour
        {
          WindowLater(accepted, now, later);
        }
      }
    }

    /** `health_check` with the bot's health record `h`, as it is evidently
        meant to work: the critical issues are collected one by one, and
        the bot is healthy when there are none. */
    method HealthCheck(h: Health) returns (ok: bool)
      ensures ok <==> hasBot && Issues(h) == []
      ensures ok <==> Healthy(hasBot, h)
    {
      if !hasBot {
        return false;
      }
      var issues: seq<string> := [];
      if !Holds(h.botRunning) {
        issues := issues + ["Bot not running"];
      }
      if !Holds(h.mainThreadAlive) {
        issues := issues + ["Main thread dead"];
      }
      if !Holds(h.bybitConnected) {
        issues := issues + ["Bybit disconnected"];
      }
      if !Holds(h.apiConnection) {
        issues := issues + ["API connection failed"];
      }
      if Holds(h.riskSwitchTriggered) {
        issues := issues + ["Risk switch triggered"];
      }
      assert issues == Issues(h);
      IssuesEmpty(h);
      ok := |issues| == 0;
    }
  }

  /** A record has no critical issue exactly when it is healthy for an
      existing bot. */
  lemma IssuesEmpty(h: Health)
    ensures Issues(h) == [] <==> Healthy(true, h)
  {
  }
}
