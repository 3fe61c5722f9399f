/**
 * The periodic health check of the tail loop, the end of the preload phase and
 * the run summary sent on shutdown.
 */
module Health {
  import opened Wrappers
  import opened State
  import opened Events

  /** Seconds between health checks. */
  const CheckInterval := 60
  /** Minutes of a fresh session before "no kills" is reported. */
  const WarnNoKillsGrace := 5
  /** Initial warning cooldown in minutes; it doubles each time a kill-rate warning expires. */
  const WarnCooldown := 15

  /** Python's `int(a / b)`: division truncated toward zero. */
  function TruncDiv(a: int, b: int): (q: int)
    requires b > 0
    ensures a >= 0 ==> 0 <= q * b <= a < (q + 1) * b
    ensures a < 0 ==> (q - 1) * b < a <= q * b <= 0
  {
    if a >= 0 then FloorBounds(a, b); a / b
    else FloorBounds(-a, b); -((-a) / b)
  }

  /** The quotient of a non-negative `a` by `b` brackets `a` between consecutive multiples. */
  lemma FloorBounds(a: int, b: int)
    requires a >= 0 && b > 0
    ensures 0 <= (a / b) * b <= a < (a / b + 1) * b
  {
    var q, r := a / b, a % b;
    assert a == q * b + r;
    assert (q + 1) * b == q * b + b;
  }

  /** The session's kills per hour is below the threshold (without the one-decimal rounding). */
  predicate RateBelow(kills: int, secs: int, threshold: int)
    requires kills != 0 && secs != 0
  {
    3600.0 / (secs as real / kills as real) < threshold as real
  }

  datatype Tick = Tick(t: TrackState, cooldown: int, out: seq<Emission>)

  /** The check is due: never run yet for this session, or a full interval has passed. */
  predicate Due(t: TrackState, mono: int) {
    t.deploytime.Some? && (t.lastcheck.None? || mono - t.lastcheck.value >= CheckInterval)
  }

  /** The instant the check is stamped with: the last one plus the interval, absorbing drift. */
  function CheckTime(t: TrackState, mono: int): int {
    if t.lastcheck.Some? then mono + (CheckInterval - (mono - t.lastcheck.value)) else mono
  }

  /** The kill-rate warning armed at `w` has outlived the cooldown at instant `now`. */
  predicate Expired(w: Option<int>, now: int, cooldown: int) {
    w.Some? && now - w.value >= cooldown * 60
  }

  /** The cooldown after an expired kill-rate warning doubles. */
  function NextCooldown(t: TrackState, cooldown: int, now: int): int {
    if Expired(t.warnedkillrate, now, cooldown) then cooldown * 2 else cooldown
  }

  /**
   * The health check once kills exist, warnings already expired: a kill rate
   * below the threshold is reported; otherwise a last kill older than the
   * limit is. Each is held back while a kill-rate warning is armed.
   */
  function KillRateCheck(t: TrackState, cfg: Config, now: int, utc: int, secs: int): Step
    requires t.session.kills != 0 && secs != 0
  {
    if RateBelow(t.session.kills, secs, cfg.warnKillRate) then
      if t.warnedkillrate.None? && secs >= WarnNoKillsGrace * 60
         && (t.warnednokills.None? || now - t.warnednokills.value >= WarnNoKillsGrace * 60) then
        var g := GateAt(t, cfg, KillRateLow, "KillRate", None);
        Step(g.t.(warnedkillrate := Some(now)), g.out)
      else Step(t, [])
    else if t.session.lastkill.None? then Step(t, [TrackingError])
    else
      var minutes := TruncDiv(utc - t.session.lastkill.value, 60);
      if t.warnedkillrate.None? && minutes >= cfg.warnNoKills then
        var g := GateAt(t, cfg, LastKillAgo(minutes), "NoKills", None);
        Step(g.t.(warnedkillrate := Some(now)), g.out)
      else Step(t, [])
  }

  /** The health check before the session's first kill, warnings already expired. */
  function NoKillsCheck(t: TrackState, cfg: Config, now: int, secs: int): Step {
    if t.warnednokills.None? && secs >= WarnNoKillsGrace * 60 then
      var g := GateAt(t, cfg, NoKillsYet(TruncDiv(secs, 60)), "NoKills", None);
      Step(g.t.(warnednokills := Some(now)), g.out)
    else Step(t, [])
  }

  /** The health check once kills exist: an outlived kill-rate warning is disarmed first. */
  function TickWithKills(t: TrackState, cfg: Config, cooldown: int, now: int, utc: int, secs: int): Tick
    requires t.session.kills != 0 && secs != 0
  {
    var t1 := if Expired(t.warnedkillrate, now, cooldown) then t.(warnedkillrate := None) else t;
    var s := KillRateCheck(t1, cfg, now, utc, secs);
    Tick(s.t, NextCooldown(t, cooldown, now), s.out)
  }

  /** The health check before the first kill: an outlived no-kills warning is disarmed first. */
  function TickWithoutKills(t: TrackState, cfg: Config, cooldown: int, now: int, secs: int): Tick {
    var t1 := if Expired(t.warnednokills, now, cooldown) then t.(warnednokills := None) else t;
    var s := NoKillsCheck(t1, cfg, now, secs);
    Tick(s.t, cooldown, s.out)
  }

  /** The session's length in seconds at wall-clock time `utc`, never zero. */
  function SessionSecs(t: TrackState, utc: int): int
    requires t.deploytime.Some?
  {
    var secs := utc - t.deploytime.value;
    if secs == 0 then 1 else secs
  }

  /**
   * One pass of the idle branch of the tail loop at monotonic time `mono` and
   * wall-clock time `utc`, with the loop's current warning `cooldown`.
   */
  function HealthTick(t: TrackState, cfg: Config, cooldown: int, mono: int, utc: int): Tick {
    if !Due(t, mono) then Tick(t, cooldown, [])
    else
      var now := CheckTime(t, mono);
      var t1 := t.(lastcheck := Some(now));
      if t.session.kills != 0 then TickWithKills(t1, cfg, cooldown, now, utc, SessionSecs(t, utc))
      else TickWithoutKills(t1, cfg, cooldown, now, SessionSecs(t, utc))
  }

  /**
   * The loop's start after the preload: the clamp is lifted, the session
   * counters are cleared with a local notice when asked for, and the start of
   * monitoring is announced.
   */
  function EndPreload(t: TrackState, cfg: Config, resetSession: bool): Step {
    var t1 := t.(preloading := false);
    var g := if resetSession then Gate(t1.(session := FreshSession), cfg, StatsReset, 1, None)
             else Step(t1, []);
    var s := Gate(g.t, cfg, MonitorStarted, 2, None);
    Step(s.t, g.out + s.out)
  }

  /** The run-total rates divide by the time between kills and by the rewards. */
  predicate SummaryFaults(t: TrackState) {
    t.totaltime == 0 || t.totalbounties == 0
  }

  /**
   * `shutdown()`: run totals when more than one kill was made, then the
   * "monitor stopped" notice. A zero divisor raises before anything is sent.
   */
  function ShutdownSummary(t: TrackState, cfg: Config): (r: Result)
    ensures r.outcome == Raised <==> t.totalkills > 1 && SummaryFaults(t)
    ensures GateOnly(t, r.t)
  {
    if t.totalkills > 1 && SummaryFaults(t) then Result(t, [], Raised)
    else if t.totalkills > 1 then
      var g1 := GateAt(t, cfg, TotalKills(t.totalkills), "SummaryKills", None);
      var g2 := GateAt(g1.t, cfg, TotalBounties(t.totalbounties), "SummaryBounties", None);
      var g3 := if t.totalmerits > 0 then GateAt(g2.t, cfg, TotalMerits(t.totalmerits), "SummaryMerits", None)
                else Step(g2.t, []);
      var g4 := Gate(g3.t, cfg, MonitorStopped, 2, None);
      Result(g4.t, g1.out + g2.out + g3.out + g4.out, Handled)
    else Done(Gate(t, cfg, MonitorStopped, 2, None))
  }
}
