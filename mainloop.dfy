/**
 * The parts of the program's main block that act on the tracking state: the
 * end of the preload, the idle-time health check of the tail loop, and the
 * summary on shutdown.
 */
module MainLoop {
  import opened Wrappers
  import opened State
  import opened Events
  import opened Health
  import opened Monitor

  /** The preload is over: lift the clamp, optionally reset the session, announce the start. */
  method EndPreload(track: Tracking, cfg: Config, resetSession: bool) returns (out: seq<Emission>)
    modifies track, track.session
    ensures Step(track.Abs(), out) == Health.EndPreload(old(track.Abs()), cfg, resetSession)
  {
    track.StopPreloading();
    out := [];
    if resetSession {
      track.ResetSession();
      out := LogEvent(track, cfg, StatsReset, 1, None);
    }
    var started := LogEvent(track, cfg, MonitorStarted, 2, None);
    out := out + started;
  }

  /**
   * One idle pass of the tail loop at monotonic time `mono` and wall-clock
   * time `utc`; `cooldown` is the loop's warning cooldown, returned updated.
   */
  method HealthCheck(track: Tracking, cfg: Config, cooldown: int, mono: int, utc: int)
    returns (cd: int, out: seq<Emission>)
    modifies track
    ensures Tick(track.Abs(), cd, out) == HealthTick(old(track.Abs()), cfg, cooldown, mono, utc)
  {
    cd, out := cooldown, [];
    if Due(track.Abs(), mono) {
      var secs := SessionSecs(track.Abs(), utc);
      var now := CheckTime(track.Abs(), mono);
      track.SetLastCheck(now);
      if track.session.kills != 0 {
        cd, out := CheckWithKills(track, cfg, cooldown, now, utc, secs);
      } else {
        out := CheckWithoutKills(track, cfg, cooldown, now, secs);
      }
    }
  }

  method CheckWithKills(track: Tracking, cfg: Config, cooldown: int, now: int, utc: int, secs: int)
    returns (cd: int, out: seq<Emission>)
    requires track.session.kills != 0 && secs != 0
    modifies track
    ensures Tick(track.Abs(), cd, out) == TickWithKills(old(track.Abs()), cfg, cooldown, now, utc, secs)
  {
    cd := NextCooldown(track.Abs(), cooldown, now);
    if Expired(track.warnedkillrate, now, cooldown) {
      track.SetWarnedKillRate(None);
    }
    out := CheckKillRate(track, cfg, now, utc, secs);
  }

  method CheckKillRate(track: Tracking, cfg: Config, now: int, utc: int, secs: int)
    returns (out: seq<Emission>)
    requires track.session.kills != 0 && secs != 0
    modifies track
    ensures Step(track.Abs(), out) == KillRateCheck(old(track.Abs()), cfg, now, utc, secs)
  {
    out := [];
    if RateBelow(track.session.kills, secs, cfg.warnKillRate) {
      if track.warnedkillrate.None? && secs >= WarnNoKillsGrace * 60
         && (track.warnednokills.None? || now - track.warnednokills.value >= WarnNoKillsGrace * 60) {
        out := LogEventAt(track, cfg, KillRateLow, "KillRate", None);
        track.SetWarnedKillRate(Some(now));
      }
    } else if track.session.lastkill.None? {
      out := [TrackingError];
    } else {
      var minutes := TruncDiv(utc - track.session.lastkill.value, 60);
      if track.warnedkillrate.None? && minutes >= cfg.warnNoKills {
        out := LogEventAt(track, cfg, LastKillAgo(minutes), "NoKills", None);
        track.SetWarnedKillRate(Some(now));
      }
    }
  }

  method CheckWithoutKills(track: Tracking, cfg: Config, cooldown: int, now: int, secs: int)
    returns (out: seq<Emission>)
    modifies track
    ensures Tick(track.Abs(), cooldown, out) == TickWithoutKills(old(track.Abs()), cfg, cooldown, now, secs)
  {
    if Expired(track.warnednokills, now, cooldown) {
      track.SetWarnedNoKills(None);
    }
    out := [];
    if track.warnednokills.None? && secs >= WarnNoKillsGrace * 60 {
      out := LogEventAt(track, cfg, NoKillsYet(TruncDiv(secs, 60)), "NoKills", None);
      track.SetWarnedNoKills(Some(now));
    }
  }

  /** `shutdown()`: the run summary and the "monitor stopped" notice. */
  method Shutdown(track: Tracking, cfg: Config) returns (out: seq<Emission>, outcome: Outcome)
    modifies track`logged, track`dupeevent, track`duperepeats, track`dupewarn
    ensures Result(track.Abs(), out, outcome) == ShutdownSummary(old(track.Abs()), cfg)
  {
    out, outcome := [], Handled;
    if track.totalkills > 1 && SummaryFaults(track.Abs()) {
      outcome := Raised;
      return;
    }
    if track.totalkills > 1 {
      var o1 := LogEventAt(track, cfg, TotalKills(track.totalkills), "SummaryKills", None);
      var o2 := LogEventAt(track, cfg, TotalBounties(track.totalbounties), "SummaryBounties", None);
      out := o1 + o2;
      if track.totalmerits > 0 {
        var o3 := LogEventAt(track, cfg, TotalMerits(track.totalmerits), "SummaryMerits", None);
        out := out + o3;
      }
    }
    var stopped := LogEvent(track, cfg, MonitorStopped, 2, None);
    out := out + stopped;
  }
}
