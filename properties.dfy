/**
 * Properties of the processor over whole runs: the journal read record by
 * record, the tracking invariant the handlers and the health check keep, and
 * the preload's promise that catching up on old records notifies no one.
 */
module Properties {
  import opened Wrappers
  import opened Text
  import opened Journal
  import opened State
  import opened Events
  import opened Health

  /** One journal line as the tail loop sees it: the parsed record and the monotonic clock. */
  datatype Line = Line(rec: Record, mono: int)

  /**
   * The records processed in order; a handler that raised skips its record,
   * and `Shutdown` ends the run.
   */
  function Run(t: TrackState, cfg: Config, lines: seq<Line>): Result
    decreases |lines|
  {
    if lines == [] then Unchanged(t)
    else
      var p := Process(t, cfg, lines[0].rec, lines[0].mono);
      if p.outcome == Exited then p
      else
        var rest := Run(p.t, cfg, lines[1..]);
        Result(rest.t, p.out + rest.out, rest.outcome)
  }

  /**
   * What the tracking state keeps through every record and health check: a
   * bounded list of recent intervals, a last-kill time once there are kills,
   * and counters that never go negative.
   */
  predicate Inv(t: TrackState) {
    && |t.session.killsrecent| <= KillsRecent
    && (t.session.kills != 0 ==> t.session.lastkill.Some?)
    && t.session.kills >= 0
    && t.session.meritstoreport >= 0
    && t.missionredirects >= 0
  }

  lemma InitialInv()
    ensures Inv(Initial)
  {
  }

  /** The gate touches only its own fields. */
  lemma GateKeepsInv(t: TrackState, cfg: Config, topic: Topic, level: int, key: Option<string>)
    requires Inv(t)
    ensures Inv(Gate(t, cfg, topic, level, key).t)
  {
  }

  lemma GateAtKeepsInv(t: TrackState, cfg: Config, topic: Topic, key: string, dedup: Option<string>)
    requires Inv(t)
    ensures Inv(GateAt(t, cfg, topic, key, dedup).t)
  {
  }

  lemma KillKeepsInv(t: TrackState, cfg: Config, time: int, mono: int, e: Event)
    requires Inv(t) && IsKill(e)
    ensures Inv(OnKill(t, cfg, time, mono, e).t)
  {
    var t1 := SessionStart(t, false, mono);
    var t2 := CountKill(t1, time, mono);
    assert Inv(t2);
    if !(e.Bounty? && e.rewards == []) {
      var c := Credit(t2, e);
      var g := Gate(c, cfg, KillTopic(cfg, t1.session, e, time), KillLevel(cfg, e), None);
      GateKeepsInv(c, cfg, KillTopic(cfg, t1.session, e, time), KillLevel(cfg, e), None);
      assert Rollup(g.t, cfg).t.session == g.t.session;
    }
  }

  lemma SessionEventKeepsInv(t: TrackState, cfg: Config, e: Event, mono: int)
    requires Inv(t)
    ensures Inv(Events.HandleSessionEvent(t, cfg, e, mono).t)
  {
    if e.Missions? && e.active.Some? && !t.missions {
      GateAtKeepsInv(Snapshot(t, e.active.value), cfg, MissionsLoaded(|MassacreIds(e.active.value)|), "Missions", None);
    }
  }

  lemma ShipTargetedKeepsInv(t: TrackState, cfg: Config, mono: int, e: Event)
    requires Inv(t) && e.ShipTargeted?
    ensures Inv(OnShipTargeted(t, cfg, mono, e).t)
  {
    ShipTargetedShape(t, cfg, mono, e);
    if e.ship.Some? {
      var ship := ShipLabel(e);
      GateAtKeepsInv(t.(session := t.session.(lastsecurity := ship)), cfg, SecurityScanned(ship), "SecurityScan", None);
      RecordScanKeepsInv(t, cfg, mono, e.ship.value, ship);
    }
  }

  lemma RecordScanKeepsInv(t: TrackState, cfg: Config, mono: int, symbol: string, ship: string)
    requires Inv(t)
    ensures Inv(RecordScan(t, cfg, mono, symbol, ship).t)
  {
  }

  lemma FuelKeepsInv(t: TrackState, cfg: Config, time: int, fuel: real)
    requires Inv(t)
    ensures Inv(OnFuel(t, cfg, time, fuel).t)
  {
    var t1 := t.(session := t.session.(fuellasttime := Some(time), fuellastremain := fuel));
    FuelReportOnlyGates(t1, cfg, FuelTierOf(fuel, t.fuelcapacity));
  }

  lemma FuelReportOnlyGates(t: TrackState, cfg: Config, tier: FuelTier)
    ensures GateOnly(t, FuelReport(t, cfg, tier).t)
  {
  }

  lemma TextKeepsInv(t: TrackState, cfg: Config, channel: string, message: string)
    requires Inv(t)
    ensures Inv(OnText(t, cfg, channel, message).t)
  {
  }

  lemma MeritsKeepsInv(t: TrackState, cfg: Config, gained: int, power: string)
    requires Inv(t)
    ensures Inv(OnMerits(t, cfg, gained, power).t)
  {
  }

  /** The notice-only events touch nothing but the gate's fields. */
  lemma NoticeOnlyGates(t: TrackState, cfg: Config, e: Event)
    requires IsNotice(e)
    ensures GateOnly(t, Notice(t, cfg, e).t)
  {
  }

  lemma HandleKeepsInv(t: TrackState, cfg: Config, e: Event, time: int, mono: int)
    requires Inv(t)
    ensures Inv(Handle(t, cfg, e, time, mono).t)
  {
    if e.ShipTargeted? {
      ShipTargetedKeepsInv(t, cfg, mono, e);
    } else if IsKill(e) {
      KillKeepsInv(t, cfg, time, mono, e);
    } else if e.MissionRedirected? || e.HullDamage? {
    } else if e.ReservoirReplenished? {
      FuelKeepsInv(t, cfg, time, e.fuelMain);
    } else if e.ReceiveText? {
      TextKeepsInv(t, cfg, e.channel, e.message);
    } else if e.PowerplayMerits? {
      MeritsKeepsInv(t, cfg, e.meritsGained, e.power);
    } else if IsNotice(e) {
      NoticeOnlyGates(t, cfg, e);
    } else {
      SessionEventKeepsInv(t, cfg, e, mono);
    }
  }

  lemma ProcessKeepsInv(t: TrackState, cfg: Config, rec: Record, mono: int)
    requires Inv(t)
    ensures Inv(Process(t, cfg, rec, mono).t)
  {
    HandleKeepsInv(t.(thiseventtime := Some(rec.timestamp)), cfg, rec.event, rec.timestamp, mono);
  }

  /** The invariant holds after any run of records from a state that has it. */
  lemma {:induction false} RunKeepsInv(t: TrackState, cfg: Config, lines: seq<Line>)
    requires Inv(t)
    ensures Inv(Run(t, cfg, lines).t)
    decreases |lines|
  {
    if lines != [] {
      ProcessKeepsInv(t, cfg, lines[0].rec, lines[0].mono);
      var p := Process(t, cfg, lines[0].rec, lines[0].mono);
      if p.outcome != Exited {
        RunKeepsInv(p.t, cfg, lines[1..]);
      }
    }
  }

  lemma HealthKeepsInv(t: TrackState, cfg: Config, cooldown: int, mono: int, utc: int)
    requires Inv(t)
    ensures Inv(HealthTick(t, cfg, cooldown, mono, utc).t)
  {
    if Due(t, mono) {
      var now := CheckTime(t, mono);
      var t1 := t.(lastcheck := Some(now));
      var secs := SessionSecs(t, utc);
      if t.session.kills != 0 {
        var t2 := if Expired(t1.warnedkillrate, now, cooldown) then t1.(warnedkillrate := None) else t1;
        KillRateCheckKeepsInv(t2, cfg, now, utc, secs);
      } else {
        var t2 := if Expired(t1.warnednokills, now, cooldown) then t1.(warnednokills := None) else t1;
        NoKillsCheckKeepsInv(t2, cfg, now, secs);
      }
    }
  }

  lemma KillRateCheckKeepsInv(t: TrackState, cfg: Config, now: int, utc: int, secs: int)
    requires Inv(t) && t.session.kills != 0 && secs != 0
    ensures Inv(KillRateCheck(t, cfg, now, utc, secs).t)
  {
    if RateBelow(t.session.kills, secs, cfg.warnKillRate) {
      GateAtKeepsInv(t, cfg, KillRateLow, "KillRate", None);
    } else if t.session.lastkill.Some? {
      GateAtKeepsInv(t, cfg, LastKillAgo(TruncDiv(utc - t.session.lastkill.value, 60)), "NoKills", None);
    }
  }

  lemma NoKillsCheckKeepsInv(t: TrackState, cfg: Config, now: int, secs: int)
    requires Inv(t)
    ensures Inv(NoKillsCheck(t, cfg, now, secs).t)
  {
    GateAtKeepsInv(t, cfg, NoKillsYet(TruncDiv(secs, 60)), "NoKills", None);
  }

  /** The gate never reports a tracking fault. */
  lemma GateAtNeverFaults(t: TrackState, cfg: Config, topic: Topic, key: string, dedup: Option<string>)
    ensures TrackingError !in GateAt(t, cfg, topic, key, dedup).out
  {
  }

  lemma KillRateCheckNeverFaults(t: TrackState, cfg: Config, now: int, utc: int, secs: int)
    requires t.session.kills != 0 && secs != 0 && t.session.lastkill.Some?
    ensures TrackingError !in KillRateCheck(t, cfg, now, utc, secs).out
  {
    if RateBelow(t.session.kills, secs, cfg.warnKillRate) {
      GateAtNeverFaults(t, cfg, KillRateLow, "KillRate", None);
    } else {
      GateAtNeverFaults(t, cfg, LastKillAgo(TruncDiv(utc - t.session.lastkill.value, 60)), "NoKills", None);
    }
  }

  lemma NoKillsCheckNeverFaults(t: TrackState, cfg: Config, now: int, secs: int)
    ensures TrackingError !in NoKillsCheck(t, cfg, now, secs).out
  {
    GateAtNeverFaults(t, cfg, NoKillsYet(TruncDiv(secs, 60)), "NoKills", None);
  }

  /**
   * With the invariant, the health check never raises: a session with kills
   * always has a last-kill time to measure from.
   */
  lemma InvNoTrackingError(t: TrackState, cfg: Config, cooldown: int, mono: int, utc: int)
    requires Inv(t)
    ensures TrackingError !in HealthTick(t, cfg, cooldown, mono, utc).out
  {
    if Due(t, mono) {
      var now := CheckTime(t, mono);
      var t1 := t.(lastcheck := Some(now));
      var secs := SessionSecs(t, utc);
      if t.session.kills != 0 {
        var t2 := if Expired(t1.warnedkillrate, now, cooldown) then t1.(warnedkillrate := None) else t1;
        KillRateCheckNeverFaults(t2, cfg, now, utc, secs);
      } else {
        var t2 := if Expired(t1.warnednokills, now, cooldown) then t1.(warnednokills := None) else t1;
        NoKillsCheckNeverFaults(t2, cfg, now, secs);
      }
    }
  }

  /** Nothing in `out` goes to the webhook. */
  predicate Quiet(out: seq<Emission>) {
    forall e :: e in out ==> !IsRemote(e)
  }

  /** During the preload every gate call stays on the terminal and keeps the preload flag. */
  lemma GatesQuiet(cfg: Config)
    requires !cfg.test
    ensures forall t: TrackState, topic, level, key :: t.preloading ==>
      Quiet(Gate(t, cfg, topic, level, key).out) && Gate(t, cfg, topic, level, key).t.preloading
  {
    forall t: TrackState, topic, level, key | t.preloading
      ensures Quiet(Gate(t, cfg, topic, level, key).out)
    {
      PreloadIsLocal(t, cfg, topic, level, key);
    }
  }

  /** What a handler does while preloading: nothing reaches the webhook and the flag stays set. */
  predicate QuietStep(t: TrackState, r: Result) {
    Quiet(r.out) && r.t.preloading
  }

  lemma ShipTargetedQuiet(t: TrackState, cfg: Config, mono: int, e: Event)
    requires t.preloading && !cfg.test && e.ShipTargeted?
    ensures QuietStep(t, OnShipTargeted(t, cfg, mono, e))
  {
    ShipTargetedShape(t, cfg, mono, e);
    if e.ship.Some? {
      SecurityScanQuiet(t, cfg, ShipLabel(e));
      RecordScanQuiet(t, cfg, mono, e.ship.value, ShipLabel(e));
    }
  }

  lemma SecurityScanQuiet(t: TrackState, cfg: Config, ship: string)
    requires t.preloading && !cfg.test
    ensures Quiet(SecurityScan(t, cfg, ship).out) && SecurityScan(t, cfg, ship).t.preloading
  {
    var t1 := t.(session := t.session.(lastsecurity := ship));
    PreloadIsLocal(t1, cfg, SecurityScanned(ship), LevelOf(cfg, "SecurityScan"), None);
  }

  lemma RecordScanQuiet(t: TrackState, cfg: Config, mono: int, symbol: string, ship: string)
    requires t.preloading && !cfg.test
    ensures Quiet(RecordScan(t, cfg, mono, symbol, ship).out) && RecordScan(t, cfg, mono, symbol, ship).t.preloading
  {
    var t1 := SessionStart(t, false, mono);
    var t2 := t1.(session := t1.session.(scans := t1.session.scans + [ship]));
    var hard := !Listed(symbol, ShipsEasy);
    var level := if hard then LevelOf(cfg, "ScanHard") else LevelOf(cfg, "ScanEasy");
    PreloadIsLocal(t2, cfg, Scanned(ship, hard), level, None);
  }

  lemma KillQuiet(t: TrackState, cfg: Config, time: int, mono: int, e: Event)
    requires t.preloading && !cfg.test && IsKill(e)
    ensures QuietStep(t, OnKill(t, cfg, time, mono, e))
  {
    var t1 := SessionStart(t, false, mono);
    var t2 := CountKill(t1, time, mono);
    if !(e.Bounty? && e.rewards == []) {
      PayoutQuiet(t2, cfg, t1.session, e, time);
    }
  }

  lemma PayoutQuiet(t: TrackState, cfg: Config, s: SessionState, e: Event, time: int)
    requires t.preloading && !cfg.test && IsKill(e) && (e.Bounty? ==> e.rewards != [])
    ensures QuietStep(t, Payout(t, cfg, s, e, time))
  {
    var c := Credit(t, e);
    PreloadIsLocal(c, cfg, KillTopic(cfg, s, e, time), KillLevel(cfg, e), None);
    RollupQuiet(Gate(c, cfg, KillTopic(cfg, s, e, time), KillLevel(cfg, e), None).t, cfg);
  }

  lemma RollupQuiet(t: TrackState, cfg: Config)
    requires t.preloading && !cfg.test
    ensures QuietStep(t, Rollup(t, cfg))
  {
    GatesQuiet(cfg);
  }

  lemma FuelQuiet(t: TrackState, cfg: Config, time: int, fuel: real)
    requires t.preloading && !cfg.test
    ensures QuietStep(t, OnFuel(t, cfg, time, fuel))
  {
    var t1 := t.(session := t.session.(fuellasttime := Some(time), fuellastremain := fuel));
    FuelReportQuiet(t1, cfg, FuelTierOf(fuel, t.fuelcapacity));
  }

  lemma FuelReportQuiet(t: TrackState, cfg: Config, tier: FuelTier)
    requires t.preloading && !cfg.test
    ensures Quiet(FuelReport(t, cfg, tier).out) && FuelReport(t, cfg, tier).t.preloading
  {
    GatesQuiet(cfg);
  }

  lemma TextQuiet(t: TrackState, cfg: Config, channel: string, message: string)
    requires t.preloading && !cfg.test
    ensures QuietStep(t, OnText(t, cfg, channel, message))
  {
    GatesQuiet(cfg);
  }

  lemma HullQuiet(t: TrackState, cfg: Config, health: real, fighter: bool, playerPilot: bool)
    requires t.preloading && !cfg.test
    ensures QuietStep(t, OnHull(t, cfg, health, fighter, playerPilot))
  {
    GatesQuiet(cfg);
  }

  lemma RedirectedQuiet(t: TrackState, cfg: Config, name: string)
    requires t.preloading && !cfg.test
    ensures QuietStep(t, OnRedirected(t, cfg, name))
  {
    GatesQuiet(cfg);
  }

  lemma MeritsQuiet(t: TrackState, cfg: Config, gained: int, power: string)
    requires t.preloading && !cfg.test
    ensures QuietStep(t, OnMerits(t, cfg, gained, power))
  {
    GatesQuiet(cfg);
  }

  lemma SessionEventQuiet(t: TrackState, cfg: Config, e: Event, mono: int)
    requires t.preloading && !cfg.test
    ensures QuietStep(t, Events.HandleSessionEvent(t, cfg, e, mono))
  {
    if e.Music? {
      PreloadIsLocal(SessionEnd(t), cfg, MainMenu, 2, None);
    } else if e.LoadGame? {
      LoadGameQuiet(t, cfg, e.commander);
    } else if e.SupercruiseDestinationDrop? {
      PreloadIsLocal(SessionStart(t, true, mono), cfg, DroppedAt(e.dropTypeLocalised), 2, None);
    } else if e.Missions? || e.MissionAccepted? || e.MissionEnded? {
      MissionsQuiet(t, cfg, e);
    } else if e.Shutdown? {
      PreloadIsLocal(t, cfg, QuitToDesktop, 2, None);
    } else if e.SupercruiseEntry? || e.FSDJump? {
      PreloadIsLocal(t, cfg, Departed(e.starSystem, e.FSDJump?), 2, None);
    }
  }

  lemma LoadGameQuiet(t: TrackState, cfg: Config, commander: string)
    requires t.preloading && !cfg.test
    ensures QuietStep(t, OnLoadGame(t, cfg, commander))
  {
    GatesQuiet(cfg);
  }

  lemma MissionsQuiet(t: TrackState, cfg: Config, e: Event)
    requires t.preloading && !cfg.test && (e.Missions? || e.MissionAccepted? || e.MissionEnded?)
    ensures QuietStep(t, Events.HandleSessionEvent(t, cfg, e, 0))
  {
    GatesQuiet(cfg);
  }

  lemma NoticeQuiet(t: TrackState, cfg: Config, e: Event)
    requires t.preloading && !cfg.test && IsNotice(e)
    ensures Quiet(Notice(t, cfg, e).out) && Notice(t, cfg, e).t.preloading
  {
    GatesQuiet(cfg);
  }

  lemma HandleQuiet(t: TrackState, cfg: Config, e: Event, time: int, mono: int)
    requires t.preloading && !cfg.test
    ensures QuietStep(t, Handle(t, cfg, e, time, mono))
  {
    if e.ShipTargeted? {
      ShipTargetedQuiet(t, cfg, mono, e);
    } else if IsKill(e) {
      KillQuiet(t, cfg, time, mono, e);
    } else if e.MissionRedirected? {
      RedirectedQuiet(t, cfg, e.name);
    } else if e.ReservoirReplenished? {
      FuelQuiet(t, cfg, time, e.fuelMain);
    } else if e.HullDamage? {
      HullQuiet(t, cfg, e.health, e.fighter, e.playerPilot);
    } else if e.ReceiveText? {
      TextQuiet(t, cfg, e.channel, e.message);
    } else if e.PowerplayMerits? {
      MeritsQuiet(t, cfg, e.meritsGained, e.power);
    } else if IsNotice(e) {
      NoticeQuiet(t, cfg, e);
    } else {
      SessionEventQuiet(t, cfg, e, mono);
    }
  }

  lemma ProcessQuiet(t: TrackState, cfg: Config, rec: Record, mono: int)
    requires t.preloading && !cfg.test
    ensures QuietStep(t, Process(t, cfg, rec, mono))
  {
    HandleQuiet(t.(thiseventtime := Some(rec.timestamp)), cfg, rec.event, rec.timestamp, mono);
  }

  /**
   * Catching up on the journal's existing records (outside test mode) sends
   * nothing to the webhook, however the records run.
   */
  lemma {:induction false} PreloadRunIsQuiet(t: TrackState, cfg: Config, lines: seq<Line>)
    requires t.preloading && !cfg.test
    ensures QuietStep(t, Run(t, cfg, lines))
    decreases |lines|
  {
    if lines != [] {
      ProcessQuiet(t, cfg, lines[0].rec, lines[0].mono);
      var p := Process(t, cfg, lines[0].rec, lines[0].mono);
      if p.outcome != Exited {
        PreloadRunIsQuiet(p.t, cfg, lines[1..]);
      }
    }
  }

  /** The session after kills at record times `times`, in order, none yet credited. */
  function KillsAt(s: SessionState, times: seq<int>): SessionState
    decreases |times|
  {
    if times == [] then s else KillCounted(KillsAt(s, times[..|times| - 1]), times[|times| - 1])
  }

  /** The intervals between consecutive kill times. */
  function Gaps(times: seq<int>): (g: seq<int>)
    ensures |g| == if |times| < 2 then 0 else |times| - 1
    decreases |times|
  {
    if |times| < 2 then [] else Gaps(times[..|times| - 1]) + [times[|times| - 1] - times[|times| - 2]]
  }

  /** The last `k` elements of `s`, or all of it when shorter. */
  function Latest(s: seq<int>, k: nat): seq<int> {
    if |s| <= k then s else s[|s| - k..]
  }

  lemma LatestPush(g: seq<int>, x: int)
    ensures Latest(g + [x], KillsRecent) == PushRecent(Latest(g, KillsRecent), x)
  {
    if |g| > KillsRecent {
      assert (g + [x])[|g| + 1 - KillsRecent..] == g[|g| - KillsRecent..][1..] + [x];
    }
  }

  /** What a session remembers of kills at `times` (the first of them opening the session). */
  predicate KillHistory(s: SessionState, times: seq<int>, r: SessionState)
    requires times != []
  {
    && r.kills == s.kills + |times|
    && r.meritstoreport == s.meritstoreport + |times|
    && r.lastkill == Some(times[|times| - 1])
    && r.scans == []
    && r.killstime == s.killstime + (times[|times| - 1] - times[0])
    && r.killsrecent == Latest(Gaps(times), KillsRecent)
  }

  /**
   * The interval bookkeeping telescopes: the summed time between kills is the
   * span from the first kill to the last, and the recent list holds the last
   * ten intervals.
   */
  lemma {:induction false} KillsTelescope(s: SessionState, times: seq<int>)
    requires s.lastkill.None? && s.killsrecent == [] && times != []
    ensures KillHistory(s, times, KillsAt(s, times))
    decreases |times|
  {
    var n := |times|;
    if n > 1 {
      var front := times[..n - 1];
      KillsTelescope(s, front);
      assert front[n - 2] == times[n - 2] && front[0] == times[0];
      assert front[..n - 2] == times[..n - 2];
      LatestPush(Gaps(front), times[n - 1] - times[n - 2]);
    }
  }

  /** The intervals between consecutive kills sum to the span from the first to the last. */
  lemma {:induction false} GapsSum(times: seq<int>)
    requires times != []
    ensures Sum(Gaps(times)) == times[|times| - 1] - times[0]
    decreases |times|
  {
    var n := |times|;
    if n > 1 {
      var front := times[..n - 1];
      GapsSum(front);
      var g := Gaps(times);
      assert g[..|g| - 1] == Gaps(front);
    }
  }

  /** The record is a `Missions` snapshot with its list of active missions. */
  predicate IsSnapshot(rec: Record) {
    rec.event.Missions? && rec.event.active.Some?
  }

  /** The tracked missions, and whether a snapshot was loaded, after one record. */
  predicate SameMissions(a: TrackState, b: TrackState) {
    b.missions == a.missions && b.missionsactive == a.missionsactive
  }

  lemma MissionEventsWithoutSnapshot(t: TrackState, cfg: Config, e: Event, mono: int)
    requires !t.missions && !(e.Missions? && e.active.Some?)
    ensures SameMissions(t, Events.HandleSessionEvent(t, cfg, e, mono).t)
  {
  }

  lemma ShipTargetedKeepsMissions(t: TrackState, cfg: Config, mono: int, e: Event)
    requires e.ShipTargeted?
    ensures SameMissions(t, OnShipTargeted(t, cfg, mono, e).t)
  {
    ShipTargetedShape(t, cfg, mono, e);
  }

  lemma KillKeepsMissions(t: TrackState, cfg: Config, time: int, mono: int, e: Event)
    requires IsKill(e)
    ensures SameMissions(t, OnKill(t, cfg, time, mono, e).t)
  {
    var t1 := SessionStart(t, false, mono);
    var t2 := CountKill(t1, time, mono);
    if !(e.Bounty? && e.rewards == []) {
      var c := Credit(t2, e);
      var g := Gate(c, cfg, KillTopic(cfg, t1.session, e, time), KillLevel(cfg, e), None);
      assert SameMissions(t, g.t);
      assert Rollup(g.t, cfg).t.missionsactive == g.t.missionsactive;
    }
  }

  lemma FuelKeepsMissions(t: TrackState, cfg: Config, time: int, fuel: real)
    ensures SameMissions(t, OnFuel(t, cfg, time, fuel).t)
  {
  }

  lemma TextKeepsMissions(t: TrackState, cfg: Config, channel: string, message: string)
    ensures SameMissions(t, OnText(t, cfg, channel, message).t)
  {
  }

  lemma HandleWithoutSnapshot(t: TrackState, cfg: Config, e: Event, time: int, mono: int)
    requires !t.missions && !(e.Missions? && e.active.Some?)
    ensures SameMissions(t, Handle(t, cfg, e, time, mono).t)
  {
    if e.ShipTargeted? {
      ShipTargetedKeepsMissions(t, cfg, mono, e);
    } else if IsKill(e) {
      KillKeepsMissions(t, cfg, time, mono, e);
    } else if e.ReservoirReplenished? {
      FuelKeepsMissions(t, cfg, time, e.fuelMain);
    } else if e.ReceiveText? {
      TextKeepsMissions(t, cfg, e.channel, e.message);
    } else if e.MissionRedirected? || e.HullDamage? || e.PowerplayMerits? {
    } else if IsNotice(e) {
      NoticeOnlyGates(t, cfg, e);
    } else {
      MissionEventsWithoutSnapshot(t, cfg, e, mono);
    }
  }

  /**
   * Until a `Missions` snapshot has been read, no mission is tracked:
   * accepted and ended missions are ignored and the active list stays as it was.
   */
  lemma {:induction false} NoTrackingBeforeSnapshot(t: TrackState, cfg: Config, lines: seq<Line>)
    requires !t.missions
    requires forall i :: 0 <= i < |lines| ==> !IsSnapshot(lines[i].rec)
    ensures SameMissions(t, Run(t, cfg, lines).t)
    decreases |lines|
  {
    if lines != [] {
      var rec := lines[0].rec;
      HandleWithoutSnapshot(t.(thiseventtime := Some(rec.timestamp)), cfg, rec.event, rec.timestamp, lines[0].mono);
      var p := Process(t, cfg, rec, lines[0].mono);
      if p.outcome != Exited {
        NoTrackingBeforeSnapshot(p.t, cfg, lines[1..]);
      }
    }
  }
}
