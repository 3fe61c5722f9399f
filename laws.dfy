/**
 * Properties of single handlers and of the main block's steps: deployment,
 * scans, missions, fuel capacity, the health check, the preload's end and
 * the shutdown summary.
 */
module Laws {
  import opened Wrappers
  import opened Text
  import opened Journal
  import opened State
  import opened Events
  import opened Health

  /** `sessionstart()` leaves a deployed session alone; otherwise it opens a fresh one now. */
  lemma SessionStartOpens(t: TrackState, reset: bool, mono: int)
    ensures var r := SessionStart(t, reset, mono);
      && (t.deploytime.Some? && !reset ==> r == t)
      && (t.deploytime.None? || reset ==>
            && r.deploytime == t.thiseventtime && r.session == FreshSession
            && r.warnednokills.None? && r.warnedkillrate.None? && r.lastcheck == Some(mono)
            && r.totalkills == t.totalkills && r.totaltime == t.totaltime
            && r.totalbounties == t.totalbounties && r.totalmerits == t.totalmerits
            && r.missionsactive == t.missionsactive && r.missionredirects == t.missionredirects
            && r.log == t.log)
  {
  }

  /** Once a session is open, a second start without reset changes nothing. */
  lemma SessionStartIdempotent(t: TrackState, reset: bool, mono: int, mono2: int)
    requires t.thiseventtime.Some?
    ensures SessionStart(SessionStart(t, reset, mono), false, mono2) == SessionStart(t, reset, mono)
  {
  }

  predicate ReportsScan(x: Emission) {
    (x.Local? || x.Remote?) && x.topic.Scanned?
  }

  /** A ship already scanned in this session is not reported or recorded again. */
  lemma ScanReportedOnce(t: TrackState, cfg: Config, mono: int, e: Event)
    requires e.ShipTargeted? && e.ship.Some? && ShipLabel(e) in t.session.scans
    ensures var r := OnShipTargeted(t, cfg, mono, e);
      r.t.session.scans == t.session.scans && forall x :: x in r.out ==> !ReportsScan(x)
  {
  }

  /** A security ship other than the last one takes priority: no scan is recorded and no session starts. */
  lemma SecurityScanFirst(t: TrackState, cfg: Config, mono: int, e: Event)
    requires e.ShipTargeted? && e.ship.Some? && ShipLabel(e) != t.session.lastsecurity
    requires e.pilotName.Some? && Contains(e.pilotName.value, "$ShipName_Police")
    ensures var r := OnShipTargeted(t, cfg, mono, e);
      && r.t.session == t.session.(lastsecurity := ShipLabel(e))
      && r.t.deploytime == t.deploytime
      && forall x :: x in r.out ==> !ReportsScan(x)
  {
  }

  /** A new combat target joins the session's scans and leaves the session open. */
  lemma NewTargetRecorded(t: TrackState, cfg: Config, mono: int, e: Event)
    requires e.ShipTargeted? && e.ship.Some? && ShipLabel(e) !in t.session.scans
    requires Listed(e.ship.value, ShipsEasy) || Listed(e.ship.value, ShipsHard)
    requires !(ShipLabel(e) != t.session.lastsecurity && e.pilotName.Some?
               && Contains(e.pilotName.value, "$ShipName_Police"))
    requires t.thiseventtime.Some?
    ensures var r := OnShipTargeted(t, cfg, mono, e);
      && ShipLabel(e) in r.t.session.scans
      && r.t.deploytime.Some?
  {
  }

  /** Accepting a massacre mission and then ending it leaves the same missions tracked. */
  lemma AcceptThenEnd(t: TrackState, cfg: Config, name: string, id: int)
    requires t.missions && Contains(name, "Mission_Massacre")
    ensures var a := OnAccepted(t, cfg, name, id).t;
      multiset(OnEnded(a, cfg, id).t.missionsactive) == multiset(t.missionsactive)
  {
  }

  /** A `Loadout` never leaves an implausible capacity for the fuel tiers to divide by. */
  lemma LoadoutCapacity(t: TrackState, cfg: Config, main: real, mono: int)
    ensures var c := Events.HandleSessionEvent(t, cfg, Loadout(main), mono).t.fuelcapacity;
      c >= 2.0 && (main >= 2.0 ==> c == main) && (main < 2.0 ==> c == 64.0)
  {
  }

  /**
   * The health check runs once per interval and stamps itself with the last
   * stamp plus the interval, so that drift does not accumulate.
   */
  lemma HealthTickCadence(t: TrackState, cfg: Config, cooldown: int, mono: int, utc: int)
    ensures var r := HealthTick(t, cfg, cooldown, mono, utc);
      && (!Due(t, mono) ==> r == Tick(t, cooldown, []))
      && (Due(t, mono) && t.lastcheck.Some? ==> r.t.lastcheck == Some(t.lastcheck.value + CheckInterval))
      && (Due(t, mono) && t.lastcheck.None? ==> r.t.lastcheck == Some(mono))
  {
  }

  /**
   * Only an expired kill-rate warning changes the cooldown, by doubling it;
   * the check never touches the session or its deployment time.
   */
  lemma HealthTickCooldown(t: TrackState, cfg: Config, cooldown: int, mono: int, utc: int)
    ensures var r := HealthTick(t, cfg, cooldown, mono, utc);
      && r.cooldown == (if Due(t, mono) && t.session.kills != 0
                          && Expired(t.warnedkillrate, CheckTime(t, mono), cooldown)
                        then 2 * cooldown else cooldown)
      && r.t.session == t.session && r.t.deploytime == t.deploytime
  {
  }

  /**
   * After the preload the clamp is lifted, the session is cleared when asked
   * for, and the only thing sent to the webhook is the start notice, without
   * a mention.
   */
  lemma EndPreloadAnnounces(t: TrackState, cfg: Config, resetSession: bool)
    ensures var r := Health.EndPreload(t, cfg, resetSession);
      && !r.t.preloading
      && (resetSession ==> r.t.session == FreshSession)
      && (!resetSession ==> r.t.session == t.session)
      && (Remote(MonitorStarted, false) in r.out <==> cfg.discordEnabled)
      && forall x :: x in r.out && IsRemote(x) ==> x == Remote(MonitorStarted, false)
  {
    var t1 := t.(preloading := false);
    var g := if resetSession then Gate(t1.(session := FreshSession), cfg, StatsReset, 1, None)
             else Step(t1, []);
    if resetSession {
      LogContract(t1.log, cfg, StatsReset, 1, None);
    }
    LogContract(g.t.log, cfg, MonitorStarted, 2, None);
  }

  /** Unless the summary raises, shutdown always announces that monitoring stopped. */
  lemma ShutdownAnnounces(t: TrackState, cfg: Config)
    requires !(t.totalkills > 1 && SummaryFaults(t)) && !t.preloading
    ensures var r := ShutdownSummary(t, cfg);
      && r.outcome == Handled
      && (!cfg.test ==> Local(MonitorStopped) in r.out)
      && (cfg.discordEnabled ==> Remote(MonitorStopped, false) in r.out)
  {
    if t.totalkills > 1 {
      var g1 := GateAt(t, cfg, TotalKills(t.totalkills), "SummaryKills", None);
      var g2 := GateAt(g1.t, cfg, TotalBounties(t.totalbounties), "SummaryBounties", None);
      var g3 := if t.totalmerits > 0 then GateAt(g2.t, cfg, TotalMerits(t.totalmerits), "SummaryMerits", None)
                else Step(g2.t, []);
      LogContract(g3.t.log, cfg, MonitorStopped, 2, None);
    } else {
      LogContract(t.log, cfg, MonitorStopped, 2, None);
    }
  }
}
